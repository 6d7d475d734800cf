/**
  The telephone call machine: one instance of the engine, with the hooks,
  callbacks and call-timeout guard of the worked example. The clock the
  example's lambdas read is the `now` each dispatch passes in.
*/
module PhoneCallStateMachine {
  import opened Wrappers
  import opened Phones
  import opened StateMachines

  type PhoneMachine = StateMachine<State, PhoneEvent, PhoneEventKind, Phone>
  type PhoneRule = Rule<State, PhoneEvent, PhoneEventKind, Phone>

  /** `Duration.ofMillis(Long.MAX_VALUE)`, the limit when none is given. */
  const LongMaxValue: Duration := 0x7FFF_FFFF_FFFF_FFFF

  function GetState(phone: Phone): State
  {
    phone.state
  }

  function ApplyState(phone: Phone, s: State): Phone
  {
    phone.WithState(s)
  }

  /** A phone never `equals` a state: its `equals` first compares classes. */
  function PhoneEqualsState(phone: Phone, s: State): bool
  {
    false
  }

  /** Entering `OffHook`: forget the number and account the running call, if any. */
  function OffHookEntry(phone: Phone, now: Instant): (r: Phone)
    ensures r.state == phone.state && r.leftMessage == phone.leftMessage
    ensures r.callingNumber.None? && r.started.None?
    ensures r.accumulated == if phone.started.Some? then now - phone.started.value else phone.accumulated
  {
    phone.WithCallingNumber(None).AccountAccumulated(now)
  }

  /** Entering `Connected`: the call starts now. */
  function ConnectedEntry(phone: Phone, now: Instant): (r: Phone)
    ensures r.started == Some(now)
    ensures r.state == phone.state && r.callingNumber == phone.callingNumber
    ensures r.leftMessage == phone.leftMessage && r.accumulated == phone.accumulated
  {
    phone.WithStarted(Some(now))
  }

  /** Leaving `Connected`: account the call. */
  function ConnectedExit(phone: Phone, now: Instant): (r: Phone)
    ensures phone.started.Some? ==> r.started.None? && r.accumulated == now - phone.started.value
    ensures phone.started.None? ==> r == phone
    ensures r.state == phone.state && r.callingNumber == phone.callingNumber && r.leftMessage == phone.leftMessage
  {
    phone.AccountAccumulated(now)
  }

  /** The dial callback: records the dialled number. */
  function DialedCallback(action: Action<PhoneEvent>, phone: Phone, now: Instant): (r: Phone)
    ensures action.Event? && action.event.CallDialed? ==> r == phone.WithCallingNumber(Some(action.event.number))
    ensures !(action.Event? && action.event.CallDialed?) ==> r == phone
  {
    match action
    case Event(CallDialed(number)) => phone.WithCallingNumber(Some(number))
    case _ => phone
  }

  /** Hanging up while ringing: forget the number. */
  function RingingHungUpCallback(action: Action<PhoneEvent>, phone: Phone, now: Instant): (r: Phone)
    ensures r.callingNumber.None?
    ensures r.state == phone.state && r.leftMessage == phone.leftMessage
    ensures r.started == phone.started && r.accumulated == phone.accumulated
  {
    phone.WithCallingNumber(None)
  }

  /** Leaving a message: record it. */
  function LeftMessageCallback(action: Action<PhoneEvent>, phone: Phone, now: Instant): (r: Phone)
    ensures action.Event? && action.event.LeftMessage? ==> r == phone.WithLeftMessage(action.event.message)
    ensures !(action.Event? && action.event.LeftMessage?) ==> r == phone
  {
    match action
    case Event(LeftMessage(message)) => phone.WithLeftMessage(message)
    case _ => phone
  }

  /** The timeout guard: a call is running and has lasted strictly longer than `maxCall`. */
  function IsCallTooLong(maxCall: Duration): (g: Guard<Phone>)
    ensures forall phone: Phone, now: Instant :: phone.started.None? ==> !g(phone, now)
    ensures forall phone: Phone | phone.started.Some? ::
      !g(phone, phone.started.value + maxCall) && g(phone, phone.started.value + maxCall + 1)
    ensures forall phone: Phone, now: Instant, later: Instant :: now <= later && g(phone, now) ==> g(phone, later)
  {
    (phone: Phone, now: Instant) => phone.started.Some? && now - phone.started.value > maxCall
  }

  function DialedRule(): PhoneRule
  {
    Rule(EventKind(CallDialedKind), OffHook, Ringing, PermitAlways, DialedCallback)
  }

  function RingingHungUpRule(): PhoneRule
  {
    Rule(EventKind(HungUpKind), Ringing, OffHook, PermitAlways, RingingHungUpCallback)
  }

  function ConnectRule(): PhoneRule
  {
    Rule(EventKind(CallConnectedKind), Ringing, Connected, PermitAlways, IdentityTransformer)
  }

  function TimeoutRule(maxCall: Duration): PhoneRule
  {
    Rule(AnyKind, Connected, OffHook, IsCallTooLong(maxCall), IdentityTransformer)
  }

  function LeftMessageRule(): PhoneRule
  {
    Rule(EventKind(LeftMessageKind), Connected, OffHook, PermitAlways, LeftMessageCallback)
  }

  function ConnectedHungUpRule(): PhoneRule
  {
    Rule(EventKind(HungUpKind), Connected, OffHook, PermitAlways, IdentityTransformer)
  }

  /** The transition table the constructor registers. */
  function PhoneTransitions(maxCall: Duration): map<(State, Kind<PhoneEventKind>), seq<PhoneRule>>
  {
    map[
      (OffHook, EventKind(CallDialedKind)) := [DialedRule()],
      (Ringing, EventKind(HungUpKind)) := [RingingHungUpRule()],
      (Ringing, EventKind(CallConnectedKind)) := [ConnectRule()],
      (Connected, AnyKind) := [TimeoutRule(maxCall)],
      (Connected, EventKind(LeftMessageKind)) := [LeftMessageRule()],
      (Connected, EventKind(HungUpKind)) := [ConnectedHungUpRule()]
    ]
  }

  function PhoneEntry(): map<State, seq<Hook<Phone>>>
  {
    map[OffHook := [OffHookEntry], Connected := [ConnectedEntry]]
  }

  function PhoneExit(): map<State, seq<Hook<Phone>>>
  {
    map[Connected := [ConnectedExit]]
  }

  /** `m` holds the phone machine's tables and functions for the limit `maxCall`. */
  ghost predicate IsPhoneCallMachine(m: PhoneMachine, maxCall: Duration)
    reads m
  {
    && m.transitions == PhoneTransitions(maxCall)
    && m.stateEntry == PhoneEntry()
    && m.stateExit == PhoneExit()
    && m.eventKind == KindOfEvent
    && m.stateExtractor == GetState
    && m.stateApplier == ApplyState
    && m.objectEqualsState == PhoneEqualsState
  }

  /** The constructor with a limit: registers the phone's hooks and rules. */
  method New(maxCall: Duration) returns (m: PhoneMachine)
    ensures fresh(m) && m.Valid() && IsPhoneCallMachine(m, maxCall)
  {
    m := new StateMachine("PhoneCall", KindOfEvent, GetState, ApplyState, PhoneEqualsState);
    RegisterOffHook(m);
    RegisterRinging(m);
    RegisterConnected(m, maxCall);
  }

  /** The `OffHook` block of the constructor. */
  method RegisterOffHook(m: PhoneMachine)
    requires m.Valid() && m.transitions == map[] && m.stateEntry == map[] && m.stateExit == map[]
    modifies m
    ensures m.Valid()
    ensures m.transitions == map[(OffHook, EventKind(CallDialedKind)) := [DialedRule()]]
    ensures m.stateEntry == map[OffHook := [OffHookEntry]] && m.stateExit == map[]
  {
    var offHook := m.FromState(OffHook);
    offHook.OnEntry(OffHookEntry);
    assert [] + [OffHookEntry] == [OffHookEntry];
    offHook.PermitCallback(EventKind(CallDialedKind), Ringing, DialedCallback);
    assert [] + [DialedRule()] == [DialedRule()];
  }

  /** The `Ringing` block of the constructor. */
  method RegisterRinging(m: PhoneMachine)
    requires m.Valid()
    requires m.transitions == map[(OffHook, EventKind(CallDialedKind)) := [DialedRule()]]
    modifies m
    ensures m.Valid()
    ensures m.transitions == map[(OffHook, EventKind(CallDialedKind)) := [DialedRule()],
                                 (Ringing, EventKind(HungUpKind)) := [RingingHungUpRule()],
                                 (Ringing, EventKind(CallConnectedKind)) := [ConnectRule()]]
    ensures m.stateEntry == old(m.stateEntry) && m.stateExit == old(m.stateExit)
  {
    var ringing := m.FromState(Ringing);
    ringing.PermitCallback(EventKind(HungUpKind), OffHook, RingingHungUpCallback);
    assert [] + [RingingHungUpRule()] == [RingingHungUpRule()];
    ringing.Permit(EventKind(CallConnectedKind), Connected);
    assert [] + [ConnectRule()] == [ConnectRule()];
  }

  /** The `Connected` block of the constructor. */
  method RegisterConnected(m: PhoneMachine, maxCall: Duration)
    requires m.Valid()
    requires m.transitions == map[(OffHook, EventKind(CallDialedKind)) := [DialedRule()],
                                  (Ringing, EventKind(HungUpKind)) := [RingingHungUpRule()],
                                  (Ringing, EventKind(CallConnectedKind)) := [ConnectRule()]]
    requires m.stateEntry == map[OffHook := [OffHookEntry]] && m.stateExit == map[]
    modifies m
    ensures m.Valid()
    ensures m.transitions == PhoneTransitions(maxCall)
    ensures m.stateEntry == PhoneEntry() && m.stateExit == PhoneExit()
  {
    ghost var before := m.transitions;
    var connected := m.FromState(Connected);
    connected.OnEntry(ConnectedEntry);
    assert [] + [ConnectedEntry] == [ConnectedEntry];
    connected.OnExit(ConnectedExit);
    assert [] + [ConnectedExit] == [ConnectedExit];
    connected.PermitIf(AnyKind, OffHook, IsCallTooLong(maxCall));
    assert [] + [TimeoutRule(maxCall)] == [TimeoutRule(maxCall)];
    connected.PermitCallback(EventKind(LeftMessageKind), OffHook, LeftMessageCallback);
    assert [] + [LeftMessageRule()] == [LeftMessageRule()];
    connected.Permit(EventKind(HungUpKind), OffHook);
    assert [] + [ConnectedHungUpRule()] == [ConnectedHungUpRule()];
  }

  /** The constructor without a limit: calls never time out in practice. */
  method NewDefault() returns (m: PhoneMachine)
    ensures fresh(m) && m.Valid() && IsPhoneCallMachine(m, LongMaxValue)
  {
    m := New(LongMaxValue);
  }

  /** Leaving `Connected` for `OffHook` accounts the call and forgets the number. */
  lemma LeavingConnected(p: Phone, now: Instant)
    requires p.started.Some?
    ensures ApplyHooks([ConnectedExit, OffHookEntry], p, now) ==
      Phone(p.state, None, p.leftMessage, None, now - p.started.value)
  {
    var accounted := ConnectedExit(p, now);
    assert [ConnectedExit, OffHookEntry][1..] == [OffHookEntry];
    assert ApplyHooks([ConnectedExit, OffHookEntry], p, now) == ApplyHooks([OffHookEntry], accounted, now);
    assert ApplyHooks([OffHookEntry], accounted, now) == OffHookEntry(accounted, now);
  }

  /** From `OffHook`, dialling rings the phone with the dialled number; nothing else changes. */
  lemma DialFromOffHook(m: PhoneMachine, maxCall: Duration, p: Phone, number: string, now: Instant)
    requires IsPhoneCallMachine(m, maxCall)
    requires p.state == OffHook
    ensures m.Outcome(p, Event(CallDialed(number)), now) ==
      Some(Phone(Ringing, Some(number), p.leftMessage, p.started, p.accumulated))
  {
    var action := Event(CallDialed(number));
    assert m.Candidates(OffHook, action) == [DialedRule()];
    m.FirstMatchWins(p, action, now, 0);
    assert m.ExitHooks(OffHook) + m.EntryHooks(Ringing) == [];
  }

  /** From `OffHook`, every action but a dialled call is rejected. */
  lemma OffHookRejectsOtherActions(m: PhoneMachine, maxCall: Duration, p: Phone, action: Action<PhoneEvent>, now: Instant)
    requires IsPhoneCallMachine(m, maxCall)
    requires p.state == OffHook
    requires !(action.Event? && action.event.CallDialed?)
    ensures m.Outcome(p, action, now) == None
  {
    assert m.Candidates(OffHook, action) == [];
  }

  /**
    From `Ringing`, hanging up goes back to `OffHook` and forgets the number; with
    no call running the duration and the message are kept.
  */
  lemma RingingHungUp(m: PhoneMachine, maxCall: Duration, p: Phone, now: Instant)
    requires IsPhoneCallMachine(m, maxCall)
    requires p.state == Ringing && p.started.None?
    ensures m.Outcome(p, Event(HungUp), now) ==
      Some(Phone(OffHook, None, p.leftMessage, None, p.accumulated))
  {
    var action := Event(HungUp);
    assert m.Candidates(Ringing, action) == [RingingHungUpRule()];
    m.FirstMatchWins(p, action, now, 0);
    assert m.ExitHooks(Ringing) + m.EntryHooks(OffHook) == [OffHookEntry];
    assert ApplyHooks([OffHookEntry], p, now) == OffHookEntry(p, now);
  }

  /**
    From `Ringing`, a connected call enters `Connected` and starts the call now.
    Entering `Connected` demands that no call is running.
  */
  lemma RingingConnected(m: PhoneMachine, maxCall: Duration, p: Phone, now: Instant)
    requires IsPhoneCallMachine(m, maxCall)
    requires p.state == Ringing && p.started.None?
    ensures m.Outcome(p, Event(CallConnected), now) ==
      Some(Phone(Connected, p.callingNumber, p.leftMessage, Some(now), p.accumulated))
  {
    var action := Event(CallConnected);
    assert m.Candidates(Ringing, action) == [ConnectRule()];
    m.FirstMatchWins(p, action, now, 0);
    assert m.ExitHooks(Ringing) + m.EntryHooks(Connected) == [ConnectedEntry];
    assert ApplyHooks([ConnectedEntry], p, now) == ConnectedEntry(p, now);
  }

  /** From `Ringing`, only hanging up and connecting are accepted. */
  lemma RingingRejectsOtherActions(m: PhoneMachine, maxCall: Duration, p: Phone, action: Action<PhoneEvent>, now: Instant)
    requires IsPhoneCallMachine(m, maxCall)
    requires p.state == Ringing
    requires !(action.Event? && (action.event.HungUp? || action.event.CallConnected?))
    ensures m.Outcome(p, action, now) == None
  {
    assert m.Candidates(Ringing, action) == [];
  }

  /**
    A call connected at `p.started` that has not outlasted `maxCall`: leaving a
    message ends it in `OffHook` with the message kept and the call's duration accounted.
  */
  lemma ConnectedLeftMessage(m: PhoneMachine, maxCall: Duration, p: Phone, message: string, now: Instant)
    requires IsPhoneCallMachine(m, maxCall)
    requires p.state == Connected && p.started.Some? && now - p.started.value <= maxCall
    ensures m.Outcome(p, Event(LeftMessage(message)), now) ==
      Some(Phone(OffHook, None, Some(message), None, now - p.started.value))
  {
    var action := Event(LeftMessage(message));
    assert m.Candidates(Connected, action) == [TimeoutRule(maxCall), LeftMessageRule()];
    assert !TimeoutRule(maxCall).guard(p, now);
    m.FirstMatchWins(p, action, now, 1);
    assert m.ExitHooks(Connected) + m.EntryHooks(OffHook) == [ConnectedExit, OffHookEntry];
    LeavingConnected(p, now);
  }

  /**
    A call that has not outlasted `maxCall`: hanging up ends it in `OffHook` with
    the call's duration accounted and the message left as it was.
  */
  lemma ConnectedHungUp(m: PhoneMachine, maxCall: Duration, p: Phone, now: Instant)
    requires IsPhoneCallMachine(m, maxCall)
    requires p.state == Connected && p.started.Some? && now - p.started.value <= maxCall
    ensures m.Outcome(p, Event(HungUp), now) ==
      Some(Phone(OffHook, None, p.leftMessage, None, now - p.started.value))
  {
    var action := Event(HungUp);
    assert m.Candidates(Connected, action) == [TimeoutRule(maxCall), ConnectedHungUpRule()];
    assert !TimeoutRule(maxCall).guard(p, now);
    m.FirstMatchWins(p, action, now, 1);
    assert m.ExitHooks(Connected) + m.EntryHooks(OffHook) == [ConnectedExit, OffHookEntry];
    LeavingConnected(p, now);
  }

  /** While a connected call has not outlasted `maxCall`, `loop` finds no transition. */
  lemma LoopBeforeTimeout(m: PhoneMachine, maxCall: Duration, p: Phone, now: Instant)
    requires IsPhoneCallMachine(m, maxCall)
    requires p.state == Connected && p.started.Some? && now - p.started.value <= maxCall
    ensures m.Outcome(p, LoopAction, now) == None
  {
    assert m.Candidates(Connected, LoopAction) == [TimeoutRule(maxCall)];
  }

  /**
    Once a connected call has lasted strictly longer than `maxCall`, the timeout rule
    fires on any action, `loop` included: the call ends in `OffHook` with its duration
    accounted, and an action's own callback (a left message, say) does not run.
  */
  lemma TimeoutFires(m: PhoneMachine, maxCall: Duration, p: Phone, action: Action<PhoneEvent>, now: Instant)
    requires IsPhoneCallMachine(m, maxCall)
    requires p.state == Connected && p.started.Some? && now - p.started.value > maxCall
    ensures m.Outcome(p, action, now) ==
      Some(Phone(OffHook, None, p.leftMessage, None, now - p.started.value))
  {
    assert GetOrEmpty(m.transitions, (Connected, AnyKind)) == [TimeoutRule(maxCall)];
    m.WildcardShadows(p, action, now, 0);
    assert m.ExitHooks(Connected) + m.EntryHooks(OffHook) == [ConnectedExit, OffHookEntry];
    LeavingConnected(p, now);
  }

  /** A connected call that has not outlasted `maxCall` accepts only a message or a hang-up. */
  lemma ConnectedRejectsOtherActions(m: PhoneMachine, maxCall: Duration, p: Phone, action: Action<PhoneEvent>, now: Instant)
    requires IsPhoneCallMachine(m, maxCall)
    requires p.state == Connected && !(p.started.Some? && now - p.started.value > maxCall)
    requires !(action.Event? && (action.event.LeftMessage? || action.event.HungUp?))
    ensures m.Outcome(p, action, now) == None
  {
    var c := m.Candidates(Connected, action);
    assert c == [TimeoutRule(maxCall)];
    assert !c[0].guard(p, now);
  }

  /**
    A call is running exactly in `Connected`. The machine keeps this, so the checks
    of `Connected`'s hooks (no call running on entry, a call running on exit) hold
    whenever those hooks run on a phone the machine produced.
  */
  predicate CallInvariant(p: Phone)
  {
    p.state == Connected <==> p.started.Some?
  }

  lemma CallInvariantPreserved(m: PhoneMachine, maxCall: Duration, p: Phone, action: Action<PhoneEvent>, now: Instant)
    requires IsPhoneCallMachine(m, maxCall)
    requires CallInvariant(p)
    ensures m.Outcome(p, action, now).Some? ==> CallInvariant(m.Outcome(p, action, now).value)
  {
    var dialed := action.Event? && action.event.CallDialed?;
    var hungUp := action.Event? && action.event.HungUp?;
    var connected := action.Event? && action.event.CallConnected?;
    var message := action.Event? && action.event.LeftMessage?;
    match p.state
    case OffHook =>
      if dialed {
        DialFromOffHook(m, maxCall, p, action.event.number, now);
      } else {
        OffHookRejectsOtherActions(m, maxCall, p, action, now);
      }
    case Ringing =>
      if hungUp {
        RingingHungUp(m, maxCall, p, now);
      } else if connected {
        RingingConnected(m, maxCall, p, now);
      } else {
        RingingRejectsOtherActions(m, maxCall, p, action, now);
      }
    case Connected =>
      if now - p.started.value > maxCall {
        TimeoutFires(m, maxCall, p, action, now);
      } else if message {
        ConnectedLeftMessage(m, maxCall, p, action.event.message, now);
      } else if hungUp {
        ConnectedHungUp(m, maxCall, p, now);
      } else {
        ConnectedRejectsOtherActions(m, maxCall, p, action, now);
      }
  }

  /**
    On a phone that keeps the invariant, the argument checks of `Connected`'s hooks
    hold: the rule that fires leaves `Connected` only with a call running, and enters
    `Connected` only with no call running once the source state's exit hooks ran.
  */
  lemma ConnectedHookChecksHold(m: PhoneMachine, maxCall: Duration, p: Phone, action: Action<PhoneEvent>, now: Instant)
    requires IsPhoneCallMachine(m, maxCall)
    requires CallInvariant(p)
    ensures var c := m.Candidates(p.state, action);
      FirstMatch(c, p, now).Some? ==>
        var i := FirstMatch(c, p, now).value;
        (c[i].from == Connected ==> p.started.Some?) &&
        (c[i].to == Connected ==> ApplyHooks(m.ExitHooks(c[i].from), p, now).started.None?)
  {
    var c := m.Candidates(p.state, action);
    m.CandidatesWellFormed(p.state, action);
    if FirstMatch(c, p, now).Some? {
      var i := FirstMatch(c, p, now).value;
      if c[i].to == Connected {
        assert p.state == Ringing;
        assert m.ExitHooks(Ringing) == [];
      }
    }
  }

  /**
    The phone after dispatching `steps` in order from `p`. A rejected action leaves
    the phone as it was, since the caller keeps its object when no rule fires.
  */
  function Run(m: PhoneMachine, p: Phone, steps: seq<(Action<PhoneEvent>, Instant)>): Phone
    reads m
    decreases |steps|
  {
    if steps == [] then p
    else
      var next := m.Outcome(p, steps[0].0, steps[0].1);
      Run(m, if next.Some? then next.value else p, steps[1..])
  }

  /** Every run from a phone that keeps the invariant ends on one that keeps it. */
  lemma {:induction false} RunKeepsCallInvariant(m: PhoneMachine, maxCall: Duration, p: Phone,
                                                 steps: seq<(Action<PhoneEvent>, Instant)>)
    requires IsPhoneCallMachine(m, maxCall)
    requires CallInvariant(p)
    ensures CallInvariant(Run(m, p, steps))
    decreases |steps|
  {
    if steps != [] {
      CallInvariantPreserved(m, maxCall, p, steps[0].0, steps[0].1);
      var next := m.Outcome(p, steps[0].0, steps[0].1);
      RunKeepsCallInvariant(m, maxCall, if next.Some? then next.value else p, steps[1..]);
    }
  }

  /**
    On every phone reached from the initial phone, the next dispatch passes the
    argument checks of `Connected`'s hooks.
  */
  lemma ReachableHookChecksHold(m: PhoneMachine, maxCall: Duration, steps: seq<(Action<PhoneEvent>, Instant)>,
                                action: Action<PhoneEvent>, now: Instant)
    requires IsPhoneCallMachine(m, maxCall)
    ensures var p := Run(m, InitialPhone(), steps);
      var c := m.Candidates(p.state, action);
      FirstMatch(c, p, now).Some? ==>
        var i := FirstMatch(c, p, now).value;
        (c[i].from == Connected ==> p.started.Some?) &&
        (c[i].to == Connected ==> ApplyHooks(m.ExitHooks(c[i].from), p, now).started.None?)
  {
    RunKeepsCallInvariant(m, maxCall, InitialPhone(), steps);
    ConnectedHookChecksHold(m, maxCall, Run(m, InitialPhone(), steps), action, now);
  }

  /** The phone every scenario starts from: on hook, nothing accumulated. */
  function InitialPhone(): (p: Phone)
    ensures p.state == OffHook && p.accumulated == 0 && CallInvariant(p)
  {
    Phone.Of(OffHook, None, None, None, 0)
  }

  /** Dialling "333-33-33" on hook at `tDial` rings; connecting at `tConnect` starts the call then. */
  lemma DialAndConnect(m: PhoneMachine, maxCall: Duration, tDial: Instant, tConnect: Instant)
    requires IsPhoneCallMachine(m, maxCall)
    ensures m.Outcome(InitialPhone(), Event(CallDialed("333-33-33")), tDial)
      == Some(Phone(Ringing, Some("333-33-33"), None, None, 0))
    ensures m.Outcome(Phone(Ringing, Some("333-33-33"), None, None, 0), Event(CallConnected), tConnect)
      == Some(Phone(Connected, Some("333-33-33"), None, Some(tConnect), 0))
  {
    DialFromOffHook(m, maxCall, InitialPhone(), "333-33-33", tDial);
    RingingConnected(m, maxCall, Phone(Ringing, Some("333-33-33"), None, None, 0), tConnect);
  }

  /**
    Dial, connect ten seconds later, and ten seconds after that either leave a
    message or hang up: both end on hook with ten seconds accumulated.
  */
  lemma CallScenario(m: PhoneMachine, maxCall: Duration, t0: Instant)
    requires IsPhoneCallMachine(m, maxCall) && maxCall >= 10_000
    ensures m.Outcome(InitialPhone(), Event(CallDialed("333-33-33")), t0)
      == Some(Phone(Ringing, Some("333-33-33"), None, None, 0))
    ensures m.Outcome(Phone(Ringing, Some("333-33-33"), None, None, 0), Event(CallConnected), t0 + 10_000)
      == Some(Phone(Connected, Some("333-33-33"), None, Some(t0 + 10_000), 0))
    ensures m.Outcome(Phone(Connected, Some("333-33-33"), None, Some(t0 + 10_000), 0),
                      Event(LeftMessage("hello!")), t0 + 20_000)
      == Some(Phone(OffHook, None, Some("hello!"), None, 10_000))
    ensures m.Outcome(Phone(Connected, Some("333-33-33"), None, Some(t0 + 10_000), 0), Event(HungUp), t0 + 20_000)
      == Some(Phone(OffHook, None, None, None, 10_000))
  {
    var connected := Phone(Connected, Some("333-33-33"), None, Some(t0 + 10_000), 0);
    DialAndConnect(m, maxCall, t0, t0 + 10_000);
    ConnectedLeftMessage(m, maxCall, connected, "hello!", t0 + 20_000);
    ConnectedHungUp(m, maxCall, connected, t0 + 20_000);
  }

  /**
    With a one-hour limit, `loop` on the call `DialAndConnect` connects at `t0`
    finds nothing at once, and after an hour and a minute ends the call with that
    time accumulated.
  */
  lemma TimeoutScenario(m: PhoneMachine, t0: Instant)
    requires IsPhoneCallMachine(m, 3_600_000)
    ensures m.Outcome(Phone(Connected, Some("333-33-33"), None, Some(t0), 0), LoopAction, t0) == None
    ensures m.Outcome(Phone(Connected, Some("333-33-33"), None, Some(t0), 0), LoopAction, t0 + 3_660_000)
      == Some(Phone(OffHook, None, None, None, 3_660_000))
  {
    var connected := Phone(Connected, Some("333-33-33"), None, Some(t0), 0);
    LoopBeforeTimeout(m, 3_600_000, connected, t0);
    TimeoutFires(m, 3_600_000, connected, LoopAction, t0 + 3_660_000);
  }

  /** With the default limit, a connected-call event on hook finds no transition. */
  lemma FallbackScenario(m: PhoneMachine, now: Instant)
    requires IsPhoneCallMachine(m, LongMaxValue)
    ensures m.Outcome(InitialPhone(), Event(CallConnected), now) == None
  {
    OffHookRejectsOtherActions(m, LongMaxValue, InitialPhone(), Event(CallConnected), now);
  }
}
