/** The five-step booking wizard: its gate, the step order behind Next and
    Back, the step indicator, the form it fills in and the POST it sends. */
module BookWizard {
  import opened Common
  import opened AuthContext
  import BookingsRoute

  datatype Step = EventType | Details | DateTime | Organizer | Confirmation

  /** The wizard's step order. */
  const Steps: seq<Step> := [EventType, Details, DateTime, Organizer, Confirmation]

  /** `steps.indexOf(step)`: every step is in the list, exactly once. */
  function StepIndex(s: Step): (i: nat)
    ensures i < |Steps| && Steps[i] == s
    ensures forall j :: 0 <= j < |Steps| && Steps[j] == s ==> j == i
  {
    match s
    case EventType => 0
    case Details => 1
    case DateTime => 2
    case Organizer => 3
    case Confirmation => 4
  }

  /** The step after `s`; the last step has none and stays put. */
  function NextStep(s: Step): Step {
    match s
    case EventType => Details
    case Details => DateTime
    case DateTime => Organizer
    case Organizer => Confirmation
    case Confirmation => Confirmation
  }

  /** The step before `s`; the first step stays put. */
  function PrevStep(s: Step): Step {
    match s
    case EventType => EventType
    case Details => EventType
    case DateTime => Details
    case Organizer => DateTime
    case Confirmation => Organizer
  }

  /** Next moves one place along the list, except from the last step. */
  lemma NextMovesOne(s: Step)
    ensures s != Confirmation ==> StepIndex(NextStep(s)) == StepIndex(s) + 1
    ensures s == Confirmation ==> NextStep(s) == s
    ensures s != EventType ==> StepIndex(PrevStep(s)) == StepIndex(s) - 1
    ensures s == EventType ==> PrevStep(s) == s
  {
  }

  /** Back undoes Next and Next undoes Back, wherever they move at all. */
  lemma BackUndoesNext(s: Step)
    ensures s != Confirmation ==> PrevStep(NextStep(s)) == s
    ensures s != EventType ==> NextStep(PrevStep(s)) == s
  {
  }

  /** Four presses of Next take the wizard from its first step to the
      confirmation. */
  lemma FourNextsConfirm()
    ensures NextStep(NextStep(NextStep(NextStep(EventType)))) == Confirmation
  {
  }

  /** `k` presses of Next. */
  function NextTimes(s: Step, k: nat): Step
    decreases k
  {
    if k == 0 then s else NextTimes(NextStep(s), k - 1)
  }

  /** From any step, `k` presses of Next move `k` places along the list,
      stopping at the confirmation. */
  lemma {:induction false} NextTimesIndex(s: Step, k: nat)
    ensures StepIndex(NextTimes(s, k)) == if StepIndex(s) + k < |Steps| then StepIndex(s) + k else |Steps| - 1
    decreases k
  {
    if k > 0 {
      NextMovesOne(s);
      NextTimesIndex(NextStep(s), k - 1);
    }
  }

  /** How the indicator draws the circle of step number `i + 1`. */
  datatype Indicator = Current | Done | Ahead

  function IndicatorOf(i: nat, step: Step): (r: Indicator)
    requires i < |Steps|
    ensures r == Current <==> i == StepIndex(step)
    ensures r == Done <==> i < StepIndex(step)
    ensures r == Ahead <==> i > StepIndex(step)
  {
    if Steps[i] == step then Current
    else if i < StepIndex(step) then Done
    else Ahead
  }

  /** The form the wizard fills in, all fields starting empty. */
  datatype Form = Form(
    eventType: string,
    eventName: string,
    guestCount: string,
    date: string,
    time: string,
    budget: string,
    notes: string,
    organizerPreference: string)

  const EmptyForm := Form("", "", "", "", "", "", "", "")

  /** The form's inputs; each `setBookingData({ ...bookingData, f: v })`
      changes one field. */
  datatype Field = EventTypeField | EventNameField | GuestCountField | DateField | TimeField
                 | BudgetField | NotesField | OrganizerField

  function SetField(f: Form, field: Field, value: string): (r: Form)
    ensures field == EventTypeField ==> r == f.(eventType := value)
    ensures field == EventNameField ==> r == f.(eventName := value)
    ensures field == GuestCountField ==> r == f.(guestCount := value)
    ensures field == DateField ==> r == f.(date := value)
    ensures field == TimeField ==> r == f.(time := value)
    ensures field == BudgetField ==> r == f.(budget := value)
    ensures field == NotesField ==> r == f.(notes := value)
    ensures field == OrganizerField ==> r == f.(organizerPreference := value)
  {
    match field
    case EventTypeField => f.(eventType := value)
    case EventNameField => f.(eventName := value)
    case GuestCountField => f.(guestCount := value)
    case DateField => f.(date := value)
    case TimeField => f.(time := value)
    case BudgetField => f.(budget := value)
    case NotesField => f.(notes := value)
    case OrganizerField => f.(organizerPreference := value)
  }

  /** `JSON.stringify(bookingData)` as the route reads it: every field
      present, `notes` included, and no `status`. */
  function RequestBody(f: Form): (d: BookingsRoute.BookingData)
    ensures d.notes == Some(f.notes) && d.status.None?
    ensures OrElse(d.notes, "") == f.notes
    ensures d.eventType == f.eventType && d.eventName == f.eventName && d.guestCount == f.guestCount
    ensures d.date == f.date && d.time == f.time && d.budget == f.budget
    ensures d.organizerPreference == f.organizerPreference
  {
    BookingsRoute.BookingData(f.eventType, f.eventName, f.guestCount, f.date, f.time, f.budget,
                              Some(f.notes), f.organizerPreference, None)
  }

  /** What the page shows before the wizard: a spinner while the auth
      context loads, then a sign-in prompt without a user. */
  datatype Screen = Spinner | SignInToBook | Wizard

  function ScreenOf(isLoading: bool, user: Option<ClientUser>): (r: Screen)
    ensures r == Wizard <==> !isLoading && user.Some?
    ensures r == Spinner <==> isLoading
  {
    if isLoading then Spinner else if user.None? then SignInToBook else Wizard
  }

  /** Back is disabled on the first step. */
  function BackDisabled(step: Step): (r: bool)
    ensures r <==> StepIndex(step) == 0
  {
    step == EventType
  }

  /** The forward button is disabled until an event type is chosen and
      while a submission is in flight. */
  function ForwardDisabled(f: Form, isSubmitting: bool): (r: bool)
    ensures !r <==> f.eventType != "" && !isSubmitting
  {
    f.eventType == "" || isSubmitting
  }

  datatype ForwardAction = GoNext | Submit

  /** The forward button submits on the confirmation step and moves on
      everywhere else. */
  function ForwardActionOf(step: Step): (a: ForwardAction)
    ensures a == Submit <==> StepIndex(step) == |Steps| - 1
  {
    if step == Confirmation then Submit else GoNext
  }

  /** The POST the wizard sends: the user's id as `x-user-id` and the form
      as its body. */
  datatype BookingRequest = BookingRequest(userIdHeader: string, body: BookingsRoute.BookingData)

  datatype SubmitOutcome = GoToDashboard | SubmitFailed

  /** The wizard's state. */
  class BookingWizard {
    var step: Step
    var form: Form
    var isSubmitting: bool

    constructor ()
      ensures step == EventType && form == EmptyForm && !isSubmitting
    {
      step := EventType;
      form := EmptyForm;
      isSubmitting := false;
    }

    /** `handleNext`: look the step up in the list and take the one after
        it, if there is one. */
    method HandleNext()
      modifies this
      ensures step == NextStep(old(step))
      ensures form == old(form) && isSubmitting == old(isSubmitting)
    {
      var currentIndex := StepIndex(step);
      if currentIndex < |Steps| - 1 {
        step := Steps[currentIndex + 1];
      }
    }

    /** `handleBack`: the step before, if there is one. */
    method HandleBack()
      modifies this
      ensures step == PrevStep(old(step))
      ensures form == old(form) && isSubmitting == old(isSubmitting)
    {
      var currentIndex := StepIndex(step);
      if currentIndex > 0 {
        step := Steps[currentIndex - 1];
      }
    }

    /** An input or a choice button. */
    method Edit(field: Field, value: string)
      modifies this
      ensures form == SetField(old(form), field, value)
      ensures step == old(step) && isSubmitting == old(isSubmitting)
    {
      form := SetField(form, field, value);
    }

    /** `handleSubmit` up to its `fetch`: the button locks and the POST goes
        out with the form as it stands. */
    method BeginSubmit(user: ClientUser) returns (request: BookingRequest)
      modifies this
      ensures isSubmitting && ForwardDisabled(form, isSubmitting)
      ensures request == BookingRequest(user.userId, RequestBody(form))
      ensures step == old(step) && form == old(form)
    {
      isSubmitting := true;
      request := BookingRequest(user.userId, RequestBody(form));
    }

    /** `handleSubmit` after its `fetch`: an ok reply leads to /dashboard; an
        error status or a thrown error is reported; the button unlocks
        either way. */
    method FinishSubmit(reply: Fetched<()>) returns (outcome: SubmitOutcome)
      modifies this
      ensures outcome == GoToDashboard <==> reply.Replied? && reply.ok
      ensures !isSubmitting
      ensures step == old(step) && form == old(form)
    {
      if reply.Replied? && reply.ok {
        outcome := GoToDashboard;
      } else {
        outcome := SubmitFailed;
      }
      isSubmitting := false;
    }
  }
}
