/** The table-reservation screen (components/ReservationComponent.js): the
    form held in the `Reservation` component's state, the confirm dialog's
    decision, and the calendar event and notification it requests. */
module ReservationComponent {
  import opened JsValues

  /** The component's `this.state`. */
  datatype Draft = Draft(guests: int, smoking: bool, date: string, showModal: bool)

  /** The state the constructor sets up. */
  const InitialDraft := Draft(1, false, "", false)

  /** `toggleModal`'s effect on the state. */
  function Toggled(d: Draft): Draft {
    d.(showModal := !d.showModal)
  }

  /** `resetForm`'s effect on the state. */
  function Reset(d: Draft): Draft {
    d.(guests := 1, smoking := false, date := "")
  }

  /** Toggling the modal twice restores the state; a toggle touches nothing else. */
  lemma ToggleTwiceRestores(d: Draft)
    ensures Toggled(Toggled(d)) == d
    ensures Toggled(d).(showModal := d.showModal) == d
  {
  }

  /** Resetting brings back the constructor's form fields, keeps the modal
      flag, and is idempotent. */
  lemma ResetRestoresDefaults(d: Draft)
    ensures Reset(d) == InitialDraft.(showModal := d.showModal)
    ensures Reset(Reset(d)) == Reset(d)
  {
  }

  const GuestsLabel := "Number of Guests: "
  const SmokingLabel := "\nSmoking? "
  const DateLabel := "\nDate and Time: "

  /** The text of the "Your Reservation OK?" alert. */
  function ConfirmationText(guests: nat, smoking: bool, date: string): string {
    GuestsLabel + NatToString(guests) + SmokingLabel + BoolToString(smoking) + DateLabel + date
  }

  /** What a reader of the alert learns from it. */
  datatype Confirmation = Confirmation(guests: nat, smoking: bool, date: string)

  /** Reads the number that opens `s` and the smoking label after it; gives
      the number and what follows the label. */
  function ReadGuests(s: string): Option<(nat, string)> {
    var k := DigitRun(s);
    if k == 0 || !(SmokingLabel <= s[k..]) then None
    else Some((ParseNat(s[..k]), s[k + |SmokingLabel|..]))
  }

  /** Reads the boolean that opens `s` and the date label after it; gives the
      boolean and the rest, which is the date. */
  function ReadSmokingAndDate(s: string): Option<(bool, string)> {
    if "true" + DateLabel <= s then Some((true, s[|"true" + DateLabel|..]))
    else if "false" + DateLabel <= s then Some((false, s[|"false" + DateLabel|..]))
    else None
  }

  /** Reads the guests, the smoking flag and the date back out of an alert text. */
  function ReadConfirmation(text: string): Option<Confirmation> {
    if !(GuestsLabel <= text) then None
    else
      match ReadGuests(text[|GuestsLabel|..])
      case None => None
      case Some((guests, rest)) =>
        match ReadSmokingAndDate(rest)
        case None => None
        case Some((smoking, date)) => Some(Confirmation(guests, smoking, date))
  }

  lemma ReadGuestsInverts(guests: nat, rest: string)
    ensures ReadGuests(NatToString(guests) + SmokingLabel + rest) == Some((guests, rest))
  {
    var digits := NatToString(guests);
    var s := digits + SmokingLabel + rest;
    assert s == digits + (SmokingLabel + rest);
    DigitRunOfNumber(guests, SmokingLabel + rest);
    assert s[..|digits|] == digits;
    assert s[|digits|..] == SmokingLabel + rest;
    ParseNatToString(guests);
  }

  lemma ReadSmokingAndDateInverts(smoking: bool, date: string)
    ensures ReadSmokingAndDate(BoolToString(smoking) + DateLabel + date) == Some((smoking, date))
  {
    var s := BoolToString(smoking) + DateLabel + date;
    if smoking {
      assert s == ("true" + DateLabel) + date;
    } else {
      assert s == ("false" + DateLabel) + date;
      assert s[0] != 't';
    }
  }

  /** The alert shows every field of the form unambiguously: the text reads
      back as exactly the guests, smoking flag and date it was built from. */
  lemma ReadConfirmationInverts(guests: nat, smoking: bool, date: string)
    ensures ReadConfirmation(ConfirmationText(guests, smoking, date)) == Some(Confirmation(guests, smoking, date))
  {
    var flagAndDate := BoolToString(smoking) + DateLabel + date;
    var afterLabel := NatToString(guests) + SmokingLabel + flagAndDate;
    var text := ConfirmationText(guests, smoking, date);
    assert text == GuestsLabel + afterLabel;
    assert text[|GuestsLabel|..] == afterLabel;
    ReadGuestsInverts(guests, flagAndDate);
    ReadSmokingAndDateInverts(smoking, date);
  }

  const NotificationTitle := "Your Reservation"
  const BodyOpening := "Reservation for "
  const BodyClosing := " requested"

  /** The body of the local notification. */
  function NotificationBody(date: string): string {
    BodyOpening + date + BodyClosing
  }

  /** Reads the date back out of a notification body. */
  function RequestedDate(body: string): Option<string> {
    if |body| >= |BodyOpening| + |BodyClosing| && body[..|BodyOpening|] == BodyOpening
       && body[|body| - |BodyClosing|..] == BodyClosing
    then Some(body[|BodyOpening|..|body| - |BodyClosing|])
    else None
  }

  /** The notification names exactly the requested date. */
  lemma RequestedDateInverts(date: string)
    ensures RequestedDate(NotificationBody(date)) == Some(date)
  {
  }

  /** 2 * 60 * 60 * 1000: two hours in milliseconds. */
  const ReservationLengthMs: int := 2 * 60 * 60 * 1000

  /** The event `addReservationToCalendar` creates, times in milliseconds. */
  datatype CalendarEvent = CalendarEvent(
    calendarId: string, title: string, startMs: int, endMs: int, timeZone: string, location: string)

  /** The event for a reservation starting at `startMs` (the time `new Date(date)`
      denotes). */
  function ReservationEvent(startMs: int): (e: CalendarEvent)
    ensures e.startMs == startMs && e.endMs - e.startMs == 7200000
    ensures e.calendarId == "5" && e.timeZone == "Asia/Hong_Kong"
  {
    CalendarEvent("5", "Con Fusion Table Reservation", startMs, startMs + ReservationLengthMs,
                  "Asia/Hong_Kong", "121, Clear Water Bay Road, Clear Water Bay, Kowloon, Hong Kong")
  }

  /** The outside effects the screen requests. */
  datatype Effect = AddEvent(event: CalendarEvent) | Notify(title: string, body: string)

  /** The two effects of a confirmed reservation for `date`, calendar first.
      `dateToMs` stands for `new Date(date).getTime()`. */
  function ReservationEffects(date: string, dateToMs: string -> int): seq<Effect> {
    [AddEvent(ReservationEvent(dateToMs(date))), Notify(NotificationTitle, NotificationBody(date))]
  }

  /** The value `obtainCalendarPermission` resolves to: the permission response
      object, whose `status` is 'granted' or not. */
  function CalendarPermissionResponse(granted: bool): JsValue {
    Object(map["status" := Str(if granted then "granted" else "denied")])
  }

  /** The guard as written: `!!(await this.obtainCalendarPermission())`. */
  function CalendarGuardAsWritten(response: JsValue): bool {
    Truthy(response)
  }

  /** The guard as written passes whatever the user answered: the response is
      an object, and every object is truthy. */
  lemma CalendarGuardAsWrittenIgnoresDenial()
    ensures CalendarGuardAsWritten(CalendarPermissionResponse(false))
  {
  }

  /** The guard as intended: the response's status is 'granted' (the test
      `obtainCalendarPermission` itself makes before alerting). */
  function CalendarGuard(response: JsValue): bool {
    response.Object? && "status" in response.fields && response.fields["status"] == Str("granted")
  }

  /** The intended guard passes exactly when the permission was granted. */
  lemma CalendarGuardFollowsPermission(granted: bool)
    ensures CalendarGuard(CalendarPermissionResponse(granted)) <==> granted
  {
  }

  /** The two buttons of the "Your Reservation OK?" alert. */
  datatype Choice = Cancel | Ok

  /** The state after the alert is answered, and the effects requested. */
  datatype Outcome = Outcome(draft: Draft, effects: seq<Effect>)

  /** The alert's decision with the guard as intended. `granted` is the user's
      answer to the calendar permission request; `dateToMs` gives the time a
      date text denotes. On a granted OK, the event starts at the form's date
      and the notification names that same date. */
  function Confirm(d: Draft, choice: Choice, granted: bool, dateToMs: string -> int): (r: Outcome)
    ensures choice == Cancel ==> r == Outcome(Reset(d), [])
    ensures choice == Ok && granted ==> r == Outcome(Reset(d), ReservationEffects(d.date, dateToMs))
    ensures choice == Ok && granted ==>
              && |r.effects| == 2
              && r.effects[0].AddEvent? && r.effects[0].event.startMs == dateToMs(d.date)
              && r.effects[1].Notify? && RequestedDate(r.effects[1].body) == Some(d.date)
    ensures choice == Ok && !granted ==> r == Outcome(d, [])
  {
    RequestedDateInverts(d.date);
    match choice
    case Cancel => Outcome(Reset(d), [])
    case Ok =>
      if CalendarGuard(CalendarPermissionResponse(granted)) then Outcome(Reset(d), ReservationEffects(d.date, dateToMs))
      else Outcome(d, [])
  }

  /** The alert's decision as the code is written. */
  function ConfirmAsWritten(d: Draft, choice: Choice, granted: bool, dateToMs: string -> int): Outcome {
    match choice
    case Cancel => Outcome(Reset(d), [])
    case Ok =>
      if CalendarGuardAsWritten(CalendarPermissionResponse(granted)) then Outcome(Reset(d), ReservationEffects(d.date, dateToMs))
      else Outcome(d, [])
  }

  /** With permission denied, the code as written still creates the event,
      posts the notification and resets the form; the intended decision does none of it. */
  lemma ConfirmAsWrittenActsWhenDenied(d: Draft, dateToMs: string -> int)
    ensures ConfirmAsWritten(d, Ok, false, dateToMs) == Outcome(Reset(d), ReservationEffects(d.date, dateToMs))
    ensures Confirm(d, Ok, false, dateToMs) != ConfirmAsWritten(d, Ok, false, dateToMs)
  {
  }

  /** The `Reservation` component. `setState` is modelled as an immediate
      update; the permission answer and the date-to-time conversion are inputs. */
  class Reservation {
    var guests: int
    var smoking: bool
    var date: string
    var showModal: bool
    /** The calendar events and notifications requested so far, oldest first. */
    ghost var effects: seq<Effect>

    /** The guest count is one of the picker's six options. */
    ghost predicate Valid()
      reads this
    {
      1 <= guests <= 6
    }

    function State(): Draft
      reads this
    {
      Draft(guests, smoking, date, showModal)
    }

    constructor ()
      ensures Valid() && State() == InitialDraft && effects == []
    {
      guests, smoking, date, showModal := 1, false, "", false;
      effects := [];
    }

    method ToggleModal()
      requires Valid()
      modifies this
      ensures Valid() && State() == Toggled(old(State())) && effects == old(effects)
    {
      showModal := !showModal;
    }

    method ResetForm()
      requires Valid()
      modifies this
      ensures Valid() && State() == Reset(old(State())) && effects == old(effects)
    {
      guests, smoking, date := 1, false, "";
    }

    /** The guests picker's `onValueChange`. */
    method SetGuests(value: int)
      requires Valid() && 1 <= value <= 6
      modifies this
      ensures Valid() && State() == old(State()).(guests := value) && effects == old(effects)
    {
      guests := value;
    }

    /** The smoking switch's `onValueChange`. */
    method SetSmoking(value: bool)
      requires Valid()
      modifies this
      ensures Valid() && State() == old(State()).(smoking := value) && effects == old(effects)
    {
      smoking := value;
    }

    /** The date picker's `onDateChange`. */
    method SetDate(value: string)
      requires Valid()
      modifies this
      ensures Valid() && State() == old(State()).(date := value) && effects == old(effects)
    {
      date := value;
    }

    /** `handleReservation`: the text of the alert it raises, built from the
      form's current fields; reading it back gives exactly those fields. */
    method HandleReservation() returns (text: string)
      requires Valid()
      ensures text == ConfirmationText(guests, smoking, date)
      ensures ReadConfirmation(text) == Some(Confirmation(guests, smoking, date))
    {
      text := ConfirmationText(guests, smoking, date);
      ReadConfirmationInverts(guests, smoking, date);
    }

    /** `addReservationToCalendar(forDate)`: the event starts at `new Date(forDate)`. */
    method AddReservationToCalendar(forDate: string, dateToMs: string -> int)
      requires Valid()
      modifies this
      ensures Valid() && State() == old(State())
      ensures effects == old(effects) + [AddEvent(ReservationEvent(dateToMs(forDate)))]
    {
      var startMs := dateToMs(forDate);
      effects := effects + [AddEvent(ReservationEvent(startMs))];
    }

    /** `presentLocalNotification`. It awaits the notification permission but
      does not look at the answer, so the notification is always requested. */
    method PresentLocalNotification(forDate: string)
      requires Valid()
      modifies this
      ensures Valid() && State() == old(State())
      ensures effects == old(effects) + [Notify(NotificationTitle, NotificationBody(forDate))]
    {
      effects := effects + [Notify(NotificationTitle, NotificationBody(forDate))];
    }

    /** Cancel in the alert: the form is reset. */
    method OnConfirmCancel()
      requires Valid()
      modifies this
      ensures Valid()
      ensures State() == Confirm(old(State()), Cancel, false, _ => 0).draft
      ensures effects == old(effects) + Confirm(old(State()), Cancel, false, _ => 0).effects
    {
      ResetForm();
    }

    /** OK in the alert, with the guard as intended: only a granted calendar
      permission leads to the event, the notification and the reset. */
    method OnConfirmOk(granted: bool, dateToMs: string -> int)
      requires Valid()
      modifies this
      ensures Valid()
      ensures State() == Confirm(old(State()), Ok, granted, dateToMs).draft
      ensures effects == old(effects) + Confirm(old(State()), Ok, granted, dateToMs).effects
    {
      var response := CalendarPermissionResponse(granted);
      if CalendarGuard(response) {
        AddReservationToCalendar(date, dateToMs);
        PresentLocalNotification(date);
        ResetForm();
      }
    }

    /** The modal's Close button, `onDismiss` and `onRequestClose`. */
    method CloseModal()
      requires Valid()
      modifies this
      ensures Valid() && State() == Reset(Toggled(old(State()))) && effects == old(effects)
    {
      ToggleModal();
      ResetForm();
    }
  }
}
