/**
  The telephone of the worked example: an immutable record whose updaters
  return a copy with one field changed. Instants and durations are whole
  milliseconds.
*/
module Phones {
  import opened Wrappers

  type Instant = int
  type Duration = int

  datatype State = Ringing | Connected | OffHook

  /** The phone's actions; `number` and `message` are their payloads. */
  datatype PhoneEvent =
    | CallDialed(number: string)
    | CallConnected
    | LeftMessage(message: string)
    | HungUp

  /** The runtime class of each action: `HungUp` and `CallConnected` are distinct kinds. */
  datatype PhoneEventKind = CallDialedKind | CallConnectedKind | LeftMessageKind | HungUpKind

  function KindOfEvent(e: PhoneEvent): (k: PhoneEventKind)
    ensures k == CallDialedKind <==> e.CallDialed?
    ensures k == CallConnectedKind <==> e.CallConnected?
    ensures k == LeftMessageKind <==> e.LeftMessage?
    ensures k == HungUpKind <==> e.HungUp?
  {
    match e
    case CallDialed(_) => CallDialedKind
    case CallConnected => CallConnectedKind
    case LeftMessage(_) => LeftMessageKind
    case HungUp => HungUpKind
  }

  datatype Phone = Phone(
    state: State,
    callingNumber: Option<string>,
    leftMessage: Option<string>,
    started: Option<Instant>,
    accumulated: Duration)
  {
    static function Of(state: State, callingNumber: Option<string>, leftMessage: Option<string>,
                       started: Option<Instant>, accumulated: Duration): (r: Phone)
      ensures r.state == state && r.callingNumber == callingNumber && r.leftMessage == leftMessage
      ensures r.started == started && r.accumulated == accumulated
    {
      Phone(state, callingNumber, leftMessage, started, accumulated)
    }

    function WithState(s: State): (r: Phone)
      ensures r.state == s
      ensures r.callingNumber == callingNumber && r.leftMessage == leftMessage
      ensures r.started == started && r.accumulated == accumulated
    {
      Of(s, callingNumber, leftMessage, started, accumulated)
    }

    function WithCallingNumber(number: Option<string>): (r: Phone)
      ensures r.callingNumber == number
      ensures r.state == state && r.leftMessage == leftMessage
      ensures r.started == started && r.accumulated == accumulated
    {
      Of(state, number, leftMessage, started, accumulated)
    }

    function WithLeftMessage(message: string): (r: Phone)
      ensures r.leftMessage == Some(message)
      ensures r.state == state && r.callingNumber == callingNumber
      ensures r.started == started && r.accumulated == accumulated
    {
      Of(state, callingNumber, Some(message), started, accumulated)
    }

    function WithStarted(instant: Option<Instant>): (r: Phone)
      ensures r.started == instant
      ensures r.state == state && r.callingNumber == callingNumber
      ensures r.leftMessage == leftMessage && r.accumulated == accumulated
    {
      Of(state, callingNumber, leftMessage, instant, accumulated)
    }

    function WithAccumulated(duration: Duration): (r: Phone)
      ensures r.accumulated == duration
      ensures r.state == state && r.callingNumber == callingNumber
      ensures r.leftMessage == leftMessage && r.started == started
    {
      Of(state, callingNumber, leftMessage, started, duration)
    }

    /**
      Ends the running call at `now`: the accumulated duration becomes the time
      since the call started (replacing the previous one) and the start is cleared.
      Without a running call the phone is returned as it is.
    */
    function AccountAccumulated(now: Instant): (r: Phone)
      ensures started.Some? ==> r.started == None && r.accumulated == now - started.value
      ensures started.None? ==> r == this
      ensures r.state == state && r.callingNumber == callingNumber && r.leftMessage == leftMessage
    {
      if started.Some? then WithStarted(None).WithAccumulated(now - started.value) else this
    }
  }

  /** The state the applier records is the state the extractor reads back. */
  lemma WithStateRoundTrip(p: Phone, s: State)
    ensures p.WithState(s).state == s
    ensures p.WithState(p.state) == p
  {
  }

  /** Accounting twice at the same instant is accounting once. */
  lemma AccountAccumulatedIdempotent(p: Phone, now: Instant)
    ensures p.AccountAccumulated(now).AccountAccumulated(now) == p.AccountAccumulated(now)
  {
  }

  /** The accumulated duration of a running call is overwritten, not added to. */
  lemma AccountAccumulatedOverwrites(p: Phone, previous: Duration, now: Instant)
    requires p.started.Some?
    ensures p.WithAccumulated(previous).AccountAccumulated(now) == p.AccountAccumulated(now)
  {
  }
}
