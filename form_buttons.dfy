/** Which of the form's three buttons (generate, clear, read text) are
    enabled, and how the page's events switch them. */
module FormButtons {

  /** The events whose handlers set the buttons. */
  datatype Event = ImageLoaded | Submitted | Cleared

  /** The `disabled` flags of the submit, reset and read-aloud buttons. */
  datatype ButtonState = ButtonState(submitDisabled: bool, resetDisabled: bool, readDisabled: bool)

  /** The workflow invariant: either only the submit button is enabled, or
      only the clear and read buttons are. */
  predicate Consistent(s: ButtonState)
  {
    s.resetDisabled == s.readDisabled == !s.submitDisabled
  }

  /** The buttons after an event. Each handler sets all three flags, so the
      state before the event does not matter. */
  function After(e: Event): (s: ButtonState)
    ensures Consistent(s)
    ensures s.submitDisabled <==> e == Submitted
  {
    match e
    case Submitted => ButtonState(true, false, false)
    case ImageLoaded => ButtonState(false, true, true)
    case Cleared => ButtonState(false, true, true)
  }

  /** The buttons after a series of events, starting from `s`. */
  function Run(s: ButtonState, events: seq<Event>): (r: ButtonState)
    decreases |events|
  {
    if events == [] then s else Run(After(events[0]), events[1..])
  }

  /** After at least one event, the buttons are as the last event left them. */
  lemma {:induction false} RunEndsAtLastEvent(s: ButtonState, events: seq<Event>)
    requires events != []
    ensures Run(s, events) == After(events[|events| - 1])
    decreases |events|
  {
    if |events| > 1 {
      RunEndsAtLastEvent(After(events[0]), events[1..]);
    }
  }

  /** Every series of events keeps the invariant, and after at least one
      event it holds whatever the starting state was. */
  lemma {:induction false} RunKeepsConsistent(s: ButtonState, events: seq<Event>)
    requires Consistent(s) || events != []
    ensures Consistent(Run(s, events))
    decreases |events|
  {
    if events != [] {
      RunKeepsConsistent(After(events[0]), events[1..]);
    }
  }

  /** After at least one event, the read-aloud button is enabled exactly when
      the last event was a submit: text can only be read after it is drawn. */
  lemma ReadEnabledIffLastSubmitted(s: ButtonState, events: seq<Event>)
    requires events != []
    ensures !Run(s, events).readDisabled <==> events[|events| - 1] == Submitted
  {
    RunEndsAtLastEvent(s, events);
  }

  /** The three buttons of the meme form. */
  class Buttons {
    var submitDisabled: bool
    var resetDisabled: bool
    var readDisabled: bool

    /** The three flags as one value. */
    function State(): (s: ButtonState)
      reads this
    {
      ButtonState(submitDisabled, resetDisabled, readDisabled)
    }

    /** The buttons as the page's markup sets them before any event. */
    constructor (initial: ButtonState)
      ensures State() == initial
    {
      submitDisabled, resetDisabled, readDisabled := initial.submitDisabled, initial.resetDisabled, initial.readDisabled;
    }

    /** Image load handler: a new image can be captioned. */
    method OnImageLoad()
      modifies this
      ensures State() == After(ImageLoaded)
      ensures !submitDisabled && resetDisabled && readDisabled
      ensures Consistent(State())
    {
      submitDisabled := false;
      resetDisabled := true;
      readDisabled := true;
    }

    /** Form submit handler: the captions are drawn and can be cleared or read. */
    method OnSubmit()
      modifies this
      ensures State() == After(Submitted)
      ensures submitDisabled && !resetDisabled && !readDisabled
      ensures Consistent(State())
    {
      submitDisabled := true;
      resetDisabled := false;
      readDisabled := false;
    }

    /** Clear button handler: back to the state before a submit. */
    method OnClear()
      modifies this
      ensures State() == After(Cleared)
      ensures !submitDisabled && resetDisabled && readDisabled
      ensures Consistent(State())
    {
      submitDisabled := false;
      resetDisabled := true;
      readDisabled := true;
    }
  }
}
