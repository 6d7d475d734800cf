/**
  A table-driven finite-state machine over immutable objects.

  The machine keeps three tables, filled by a builder before any dispatch:
  the transition rules keyed by (source state, action kind), and the entry
  and exit hooks of each state. `Transition` reads them to compute the next
  object for an incoming action, or reports that no rule applies.

  Every caller-supplied function (guard, hook, callback) receives `now`, the
  clock reading of the dispatch call, in place of a clock it would capture.
*/
module StateMachines {
  import opened Wrappers

  /** An incoming action: a caller-defined event, or one of the two reserved kinds. */
  datatype Action<A> =
    | AnyAction(inner: Action<A>)  // wraps the action that matched a wildcard rule
    | LoopAction                   // re-evaluates the wildcard guards without an event
    | Event(event: A)

  /** The kind an action is registered and looked up under. */
  datatype Kind<K> = AnyKind | LoopKind | EventKind(kind: K)

  type Guard<!O> = (O, int) -> bool
  type Hook<!O> = (O, int) -> O
  type Callback<!A, !O> = (Action<A>, O, int) -> O

  /** One transition rule: registered under `actionKind` for source state `from`. */
  datatype Rule<S, !A, K, !O> =
    Rule(actionKind: Kind<K>, from: S, to: S, guard: Guard<O>, actionCallback: Callback<A, O>)

  /** The list stored under `x`, or the empty list when there is none. */
  function GetOrEmpty<X, Y>(m: map<X, seq<Y>>, x: X): seq<Y>
  {
    if x in m then m[x] else []
  }

  /** The guard `permit` registers: accepts every object. */
  function PermitAlways<O>(o: O, now: int): (accepted: bool)
    ensures accepted
  {
    true
  }

  /** The callback the callback-less builder calls register: keeps the object. */
  function IdentityTransformer<A, O>(action: Action<A>, o: O, now: int): (r: O)
    ensures r == o
  {
    o
  }

  /** The guard feedback of a dispatch: reports a labelled decision and hands its outcome back. */
  function AddResolution(description: string, outcome: bool): (r: bool)
    ensures r <==> outcome
  {
    outcome
  }

  /** A guard that reports `simpleGuard`'s decision under `message`. */
  function WithMessage<O(!new)>(message: string, simpleGuard: (O, int) -> bool): (g: Guard<O>)
    ensures forall o, now :: g(o, now) <==> simpleGuard(o, now)
  {
    (o: O, now: int) => AddResolution(message, simpleGuard(o, now))
  }

  /** The object after running `hooks` on `o`, first hook first. */
  function ApplyHooks<O>(hooks: seq<Hook<O>>, o: O, now: int): O
    decreases |hooks|
  {
    if hooks == [] then o else ApplyHooks(hooks[1..], hooks[0](o, now), now)
  }

  /** Running two hook lists one after the other is running their concatenation. */
  lemma {:induction false} ApplyHooksAppend<O>(first: seq<Hook<O>>, second: seq<Hook<O>>, o: O, now: int)
    ensures ApplyHooks(first + second, o, now) == ApplyHooks(second, ApplyHooks(first, o, now), now)
    decreases |first|
  {
    if first == [] {
      assert first + second == second;
    } else {
      var joined := first + second;
      assert joined != [] && joined[0] == first[0] && joined[1..] == first[1..] + second;
      ApplyHooksAppend(first[1..], second, first[0](o, now), now);
      calc {
        ApplyHooks(joined, o, now);
        ApplyHooks(first[1..] + second, first[0](o, now), now);
        ApplyHooks(second, ApplyHooks(first[1..], first[0](o, now), now), now);
        ApplyHooks(second, ApplyHooks(first, o, now), now);
      }
    }
  }

  /** The index of the first candidate whose guard accepts `o`, if any. */
  function FirstMatch<S, A, K, O>(candidates: seq<Rule<S, A, K, O>>, o: O, now: int): (r: Option<nat>)
    ensures r.Some? ==> r.value < |candidates| && candidates[r.value].guard(o, now)
    ensures r.Some? ==> forall j :: 0 <= j < r.value ==> !candidates[j].guard(o, now)
    ensures r.None? ==> forall j :: 0 <= j < |candidates| ==> !candidates[j].guard(o, now)
  {
    if candidates == [] then None
    else if candidates[0].guard(o, now) then Some(0)
    else match FirstMatch(candidates[1..], o, now)
      case None => None
      case Some(k) => Some(k + 1)
  }

  class StateMachine<S(==), A, K(==), O> {
    const machineName: string
    /** The kind of a caller-defined event (its runtime class). */
    const eventKind: A -> K
    const stateExtractor: O -> S
    const stateApplier: (O, S) -> O
    /** Whether the object `equals` a state: the test that skips the hooks. */
    const objectEqualsState: (O, S) -> bool

    var transitions: map<(S, Kind<K>), seq<Rule<S, A, K, O>>>
    var stateEntry: map<S, seq<Hook<O>>>
    var stateExit: map<S, seq<Hook<O>>>

    /** Every rule is stored under its own source state and action kind. */
    ghost predicate Valid()
      reads this
    {
      forall key, i | key in transitions && 0 <= i < |transitions[key]| ::
        transitions[key][i].from == key.0 && transitions[key][i].actionKind == key.1
    }

    constructor (machineName: string, eventKind: A -> K, stateExtractor: O -> S,
                 stateApplier: (O, S) -> O, objectEqualsState: (O, S) -> bool)
      ensures this.machineName == machineName && this.eventKind == eventKind
      ensures this.stateExtractor == stateExtractor && this.stateApplier == stateApplier
      ensures this.objectEqualsState == objectEqualsState
      ensures transitions == map[] && stateEntry == map[] && stateExit == map[]
      ensures Valid()
    {
      this.machineName := machineName;
      this.eventKind := eventKind;
      this.stateExtractor := stateExtractor;
      this.stateApplier := stateApplier;
      this.objectEqualsState := objectEqualsState;
      transitions := map[];
      stateEntry := map[];
      stateExit := map[];
    }

    /** The runtime kind of an action; only an `AnyAction` has the wildcard kind. */
    function KindOf(action: Action<A>): (k: Kind<K>)
      ensures k == AnyKind <==> action.AnyAction?
      ensures k == LoopKind <==> action.LoopAction?
    {
      match action
      case AnyAction(_) => AnyKind
      case LoopAction => LoopKind
      case Event(e) => EventKind(eventKind(e))
    }

    function EntryHooks(s: S): seq<Hook<O>>
      reads this
    {
      GetOrEmpty(stateEntry, s)
    }

    function ExitHooks(s: S): seq<Hook<O>>
      reads this
    {
      GetOrEmpty(stateExit, s)
    }

    /** The rules tried for `action` in state `fromState`, in the order they are tried. */
    function Candidates(fromState: S, action: Action<A>): seq<Rule<S, A, K, O>>
      reads this
    {
      GetOrEmpty(transitions, (fromState, AnyKind))
        + if action.AnyAction? then [] else GetOrEmpty(transitions, (fromState, KindOf(action)))
    }

    /** The action a rule's callback receives: wrapped when the rule is a wildcard rule. */
    function Wrap(rule: Rule<S, A, K, O>, action: Action<A>): Action<A>
    {
      if rule.actionKind == AnyKind then AnyAction(action) else action
    }

    /** The object after leaving `fromState` and entering `toState`. */
    function Handled(o: O, fromState: S, toState: S, now: int): O
      reads this
    {
      stateApplier(ApplyHooks(ExitHooks(fromState) + EntryHooks(toState), o, now), toState)
    }

    /** The object handed to an accepted rule's callback. */
    function Prepared(rule: Rule<S, A, K, O>, o: O, now: int): O
      reads this
    {
      if objectEqualsState(o, rule.to) then o else Handled(o, rule.from, rule.to, now)
    }

    /** The result of firing an accepted rule. */
    function Fire(rule: Rule<S, A, K, O>, o: O, action: Action<A>, now: int): O
      reads this
    {
      rule.actionCallback(Wrap(rule, action), Prepared(rule, o, now), now)
    }

    /** What dispatching `action` on `o` yields: the first accepted candidate fires. */
    function Outcome(o: O, action: Action<A>, now: int): Option<O>
      reads this
    {
      var candidates := Candidates(stateExtractor(o), action);
      match FirstMatch(candidates, o, now)
      case None => None
      case Some(i) => Some(Fire(candidates[i], o, action, now))
    }

    /** Calls a rule's callback; the action must be of the kind the rule was registered under. */
    function OnAction(rule: Rule<S, A, K, O>, action: Action<A>, o: O, now: int): (r: O)
      requires KindOf(action) == rule.actionKind
      ensures r == rule.actionCallback(action, o, now)
    {
      rule.actionCallback(action, o, now)
    }

    method FromState(from: S) returns (b: StateBuilder<S, A, K, O>)
      ensures fresh(b) && b.machine == this && b.from == from
    {
      b := new StateBuilder(this, from);
    }

    /** Appends one rule to the list for (from, kind). */
    method AddTransition(kind: Kind<K>, from: S, to: S, guard: Guard<O>, actionCallback: Callback<A, O>)
      requires Valid()
      modifies this
      ensures Valid()
      ensures transitions == old(transitions)[(from, kind) :=
                GetOrEmpty(old(transitions), (from, kind)) + [Rule(kind, from, to, guard, actionCallback)]]
      ensures stateEntry == old(stateEntry) && stateExit == old(stateExit)
    {
      transitions := transitions[(from, kind) := GetOrEmpty(transitions, (from, kind)) + [Rule(kind, from, to, guard, actionCallback)]];
    }

    /** Runs the exit hooks of `fromState`, then the entry hooks of `toState`, then records `toState`. */
    method HandleStateTransition(from: O, fromState: S, toState: S, now: int) returns (r: O)
      ensures r == Handled(from, fromState, toState, now)
    {
      var exits := ExitHooks(fromState);
      var entries := EntryHooks(toState);
      var current := from;
      for i := 0 to |exits|
        invariant current == ApplyHooks(exits[..i], from, now)
      {
        ApplyHooksAppend(exits[..i], [exits[i]], from, now);
        assert exits[..i + 1] == exits[..i] + [exits[i]];
        current := exits[i](current, now);
      }
      assert exits[..|exits|] == exits;
      ghost var afterExit := current;
      for i := 0 to |entries|
        invariant current == ApplyHooks(entries[..i], afterExit, now)
      {
        ApplyHooksAppend(entries[..i], [entries[i]], afterExit, now);
        assert entries[..i + 1] == entries[..i] + [entries[i]];
        current := entries[i](current, now);
      }
      assert entries[..|entries|] == entries;
      ApplyHooksAppend(exits, entries, from, now);
      r := stateApplier(current, toState);
    }

    /**
      Dispatches `action` on `inputObject`: tries the candidates in order and fires
      the first whose guard accepts; `evaluated` is how many guards were consulted.
    */
    method Transition(inputObject: O, action: Action<A>, now: int) returns (r: Option<O>, ghost evaluated: nat)
      requires Valid()
      ensures r == Outcome(inputObject, action, now)
      ensures var candidates := Candidates(stateExtractor(inputObject), action);
        evaluated <= |candidates| &&
        (r.Some? <==> evaluated > 0 && candidates[evaluated - 1].guard(inputObject, now)) &&
        forall j :: 0 <= j < evaluated - 1 ==> !candidates[j].guard(inputObject, now)
      ensures r.None? ==> evaluated == |Candidates(stateExtractor(inputObject), action)|
    {
      var fromState := stateExtractor(inputObject);
      var anyActionTransitions := GetOrEmpty(transitions, (fromState, AnyKind));
      var exactTransitions;
      if !action.AnyAction? {
        exactTransitions := GetOrEmpty(transitions, (fromState, KindOf(action)));
      } else {
        exactTransitions := [];
      }
      var candidates := anyActionTransitions + exactTransitions;
      var i := 0;
      while i < |candidates|
        invariant 0 <= i <= |candidates|
        invariant forall j :: 0 <= j < i ==> !candidates[j].guard(inputObject, now)
      {
        var transition := candidates[i];
        if transition.guard(inputObject, now) {
          var outputObject;
          if !objectEqualsState(inputObject, transition.to) {
            outputObject := HandleStateTransition(inputObject, transition.from, transition.to, now);
          } else {
            outputObject := inputObject;
          }
          var wrappedAction;
          if transition.actionKind == AnyKind {
            wrappedAction := AnyAction(action);
          } else {
            wrappedAction := action;
          }
          CallbackKindMatches(fromState, action, i);
          var result := OnAction(transition, wrappedAction, outputObject, now);
          return Some(result), i + 1;
        }
        i := i + 1;
      }
      return None, |candidates|;
    }

    /** Dispatches the loop pseudo-action: re-evaluates the wildcard guards. */
    method Loop(inputObject: O, now: int) returns (r: Option<O>)
      requires Valid()
      ensures r == Outcome(inputObject, LoopAction, now)
    {
      ghost var evaluated;
      r, evaluated := Transition(inputObject, LoopAction, now);
    }

    /**
      The candidates are the wildcard rules of the state, then (unless the action is
      itself an `AnyAction`) the rules of the action's exact kind, all from `fromState`.
    */
    lemma CandidatesWellFormed(fromState: S, action: Action<A>)
      requires Valid()
      ensures var c := Candidates(fromState, action);
        forall i :: 0 <= i < |c| ==> c[i].from == fromState
      ensures var c := Candidates(fromState, action);
        forall i :: 0 <= i < |c| ==>
          c[i].actionKind == AnyKind || (!action.AnyAction? && c[i].actionKind == KindOf(action))
      ensures var c := Candidates(fromState, action);
        forall i, j :: 0 <= i < j < |c| && c[j].actionKind == AnyKind ==> c[i].actionKind == AnyKind
    {
      var c := Candidates(fromState, action);
      var wild := GetOrEmpty(transitions, (fromState, AnyKind));
      forall i | 0 <= i < |c|
        ensures c[i].from == fromState
        ensures i < |wild| <==> c[i].actionKind == AnyKind
        ensures c[i].actionKind == AnyKind || (!action.AnyAction? && c[i].actionKind == KindOf(action))
      {
        if i < |wild| {
          assert c[i] == wild[i];
        } else {
          var exact := GetOrEmpty(transitions, (fromState, KindOf(action)));
          assert c[i] == exact[i - |wild|];
        }
      }
    }

    /** The action handed to a candidate's callback is of the kind the rule was registered under. */
    lemma CallbackKindMatches(fromState: S, action: Action<A>, i: nat)
      requires Valid()
      requires i < |Candidates(fromState, action)|
      ensures KindOf(Wrap(Candidates(fromState, action)[i], action)) == Candidates(fromState, action)[i].actionKind
    {
      CandidatesWellFormed(fromState, action);
    }

    /** First match wins: the first accepting candidate decides the result. */
    lemma FirstMatchWins(o: O, action: Action<A>, now: int, i: nat)
      requires var c := Candidates(stateExtractor(o), action);
        i < |c| && c[i].guard(o, now) && forall j :: 0 <= j < i ==> !c[j].guard(o, now)
      ensures Outcome(o, action, now) == Some(Fire(Candidates(stateExtractor(o), action)[i], o, action, now))
    {
    }

    /** The result is absent exactly when no candidate's guard accepts. */
    lemma AbsentIffNoGuardAccepts(o: O, action: Action<A>, now: int)
      ensures Outcome(o, action, now).None? <==>
        var c := Candidates(stateExtractor(o), action);
        forall j :: 0 <= j < |c| ==> !c[j].guard(o, now)
    {
    }

    /** An accepting wildcard rule shadows every rule of the action's exact kind. */
    lemma WildcardShadows(o: O, action: Action<A>, now: int, k: nat)
      requires var w := GetOrEmpty(transitions, (stateExtractor(o), AnyKind));
        k < |w| && w[k].guard(o, now) && forall j :: 0 <= j < k ==> !w[j].guard(o, now)
      ensures var w := GetOrEmpty(transitions, (stateExtractor(o), AnyKind));
        Outcome(o, action, now) == Some(Fire(w[k], o, action, now))
    {
      var w := GetOrEmpty(transitions, (stateExtractor(o), AnyKind));
      var c := Candidates(stateExtractor(o), action);
      assert c[..|w|] == w;
      FirstMatchWins(o, action, now, k);
    }

    /** If the extractor reads back the applied state, the callback receives an object in the destination state. */
    lemma PreparedReachesDestination(rule: Rule<S, A, K, O>, o: O, now: int)
      requires forall x, s :: stateExtractor(stateApplier(x, s)) == s
      requires !objectEqualsState(o, rule.to)
      ensures stateExtractor(Prepared(rule, o, now)) == rule.to
    {
    }

    /**
      When no object equals a state, the hooks and the applier run on every accepted
      rule, a rule from a state to itself included.
    */
    lemma HooksAlwaysRun(rule: Rule<S, A, K, O>, o: O, now: int)
      requires forall x, s :: !objectEqualsState(x, s)
      ensures Prepared(rule, o, now) ==
        stateApplier(ApplyHooks(ExitHooks(rule.from) + EntryHooks(rule.to), o, now), rule.to)
    {
    }
  }

  /** The fluent scope bound to one source state. */
  class StateBuilder<S(==), A, K(==), O> {
    const machine: StateMachine<S, A, K, O>
    const from: S

    constructor (machine: StateMachine<S, A, K, O>, from: S)
      ensures this.machine == machine && this.from == from
    {
      this.machine := machine;
      this.from := from;
    }

    method OnEntry(entryTransformer: Hook<O>)
      requires machine.Valid()
      modifies machine
      ensures machine.Valid()
      ensures machine.stateEntry ==
        old(machine.stateEntry)[from := GetOrEmpty(old(machine.stateEntry), from) + [entryTransformer]]
      ensures machine.transitions == old(machine.transitions) && machine.stateExit == old(machine.stateExit)
    {
      machine.stateEntry := machine.stateEntry[from := GetOrEmpty(machine.stateEntry, from) + [entryTransformer]];
    }

    method OnExit(exitTransformer: Hook<O>)
      requires machine.Valid()
      modifies machine
      ensures machine.Valid()
      ensures machine.stateExit ==
        old(machine.stateExit)[from := GetOrEmpty(old(machine.stateExit), from) + [exitTransformer]]
      ensures machine.transitions == old(machine.transitions) && machine.stateEntry == old(machine.stateEntry)
    {
      machine.stateExit := machine.stateExit[from := GetOrEmpty(machine.stateExit, from) + [exitTransformer]];
    }

    /** `permitIf` with a callback. */
    method PermitIfCallback(kind: Kind<K>, to: S, guard: Guard<O>, objectTransformer: Callback<A, O>)
      requires machine.Valid()
      modifies machine
      ensures machine.Valid()
      ensures machine.transitions == old(machine.transitions)[(from, kind) :=
                GetOrEmpty(old(machine.transitions), (from, kind)) + [Rule(kind, from, to, guard, objectTransformer)]]
      ensures machine.stateEntry == old(machine.stateEntry) && machine.stateExit == old(machine.stateExit)
    {
      machine.AddTransition(kind, from, to, guard, objectTransformer);
    }

    /** `permit` with a callback: the rule's guard always accepts. */
    method PermitCallback(kind: Kind<K>, to: S, objectTransformer: Callback<A, O>)
      requires machine.Valid()
      modifies machine
      ensures machine.Valid()
      ensures machine.transitions == old(machine.transitions)[(from, kind) :=
                GetOrEmpty(old(machine.transitions), (from, kind)) + [Rule(kind, from, to, PermitAlways, objectTransformer)]]
      ensures machine.stateEntry == old(machine.stateEntry) && machine.stateExit == old(machine.stateExit)
    {
      machine.AddTransition(kind, from, to, PermitAlways, objectTransformer);
    }

    /** `permitIf` without a callback: the rule keeps the object its hooks produced. */
    method PermitIf(kind: Kind<K>, to: S, guard: Guard<O>)
      requires machine.Valid()
      modifies machine
      ensures machine.Valid()
      ensures machine.transitions == old(machine.transitions)[(from, kind) :=
                GetOrEmpty(old(machine.transitions), (from, kind)) + [Rule(kind, from, to, guard, IdentityTransformer)]]
      ensures machine.stateEntry == old(machine.stateEntry) && machine.stateExit == old(machine.stateExit)
    {
      machine.AddTransition(kind, from, to, guard, IdentityTransformer);
    }

    /** `permit` without a callback: always accepts and keeps the object its hooks produced. */
    method Permit(kind: Kind<K>, to: S)
      requires machine.Valid()
      modifies machine
      ensures machine.Valid()
      ensures machine.transitions == old(machine.transitions)[(from, kind) :=
                GetOrEmpty(old(machine.transitions), (from, kind)) + [Rule(kind, from, to, PermitAlways, IdentityTransformer)]]
      ensures machine.stateEntry == old(machine.stateEntry) && machine.stateExit == old(machine.stateExit)
    {
      machine.AddTransition(kind, from, to, PermitAlways, IdentityTransformer);
    }
  }
}
