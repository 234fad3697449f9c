/** The generic finite state machine of gotoword/gotoword_state_machine.py:
    handlers registered under case-insensitive names, a start state, end
    states, and a `run` loop that calls handlers until one names an end
    state; with the three handlers of that file and the machine it sets up. */
module Fsm {
  import opened Common

  /** The handler functions the file defines. */
  datatype Handler = StartTransitions | ReadContextTransitions | EndState

  /** What the handlers pass along: a text, or the tuple
      `(func, store, keyword, buf)` that `read_context_transitions` unpacks;
      `func` and `store` are not modelled, so a call is recorded by its
      keyword and buffer. */
  datatype Cargo = Text(text: string) | Call(keyword: string, buf: seq<string>)

  /** The exceptions `run` can end with. */
  datatype FsmError =
    | NotStarted               // "must call .set_start() before .run()"
    | NoEndState               // "at least one state must be an end_state"
    | UnknownState(name: string)  // KeyError: a handler named a state not registered
    | NotUnpackable            // the cargo is not the 4-tuple read_context_transitions expects
    | FormatError              // end_state's "%s ... %s" % "testend"
    | NoAnswer                 // no reply left for the start prompt

  /** A handler's return value `(newState, cargo)`. */
  datatype Transition = Transition(next: string, cargo: Cargo)

  /** `start_transitions(cargo)` given the prompt's reply: upper-cased, then
      stripped; "1…" reads a context, "2…" creates the keyword, anything
      else ends. */
  function StartTransitionsOf(answer: string, cargo: Cargo): Transition
  {
    var a := StripSpace(Upper(answer));
    if StartsWith(a, "1") then Transition("read_context_state", cargo)
    else if StartsWith(a, "2") then Transition("new_keyword_state", cargo)
    else Transition("end_state", cargo)
  }

  lemma UpperOfConcat(a: string, b: string)
    ensures Upper(a + b) == Upper(a) + Upper(b)
  {
  }

  lemma {:induction false} DropLeadingSpaceOfSpace(ws: string, b: string)
    requires forall i :: 0 <= i < |ws| ==> IsSpace(ws[i])
    ensures DropLeadingSpace(ws + b) == DropLeadingSpace(b)
  {
    if ws != [] {
      assert (ws + b)[0] == ws[0] && IsSpace(ws[0]);
      assert (ws + b)[1..] == ws[1..] + b;
      DropLeadingSpaceOfSpace(ws[1..], b);
    } else {
      assert ws + b == b;
    }
  }

  /** The reply is read whatever the case of its letters and whatever white
      space precedes it. */
  lemma StartTransitionsIgnoreCaseAndSpace(ws: string, answer: string, cargo: Cargo)
    requires forall i :: 0 <= i < |ws| ==> IsSpace(ws[i])
    ensures StartTransitionsOf(ws + Lower(answer), cargo) == StartTransitionsOf(answer, cargo)
  {
    UpperOfConcat(ws, Lower(answer));
    UpperIgnoresCase(answer);
    var u := Upper(ws);
    assert forall i :: 0 <= i < |u| ==> u[i] == ws[i];
    DropLeadingSpaceOfSpace(u, Upper(answer));
  }

  /** `read_context_transitions(cargo)`: unpacks the call, makes it, ends. */
  function ReadContextTransitionsOf(cargo: Cargo): (r: Option<Transition>)
    ensures r.Some? <==> cargo.Call?
    ensures r.Some? ==> r.value == Transition("end_state", cargo)
  {
    if cargo.Call? then Some(Transition("end_state", cargo)) else None
  }

  /** `end_state(answer)`: only "abort" gets through; any other cargo makes
      the message's format string raise. */
  function EndStateOf(cargo: Cargo): (r: Option<Transition>)
    ensures r.Some? <==> cargo == Text("abort")
    ensures r.Some? ==> r.value == Transition("end_state", cargo)
  {
    if cargo == Text("abort") then Some(Transition("end_state", cargo)) else None
  }

  /** One handler call: its transition, the replies left, and the call it
      made (read_context_transitions calls `func`), or its exception. */
  datatype Handled = Moved(t: Transition, answers: seq<string>, called: seq<Cargo>) | HandlerFailed(error: FsmError)

  function Handle(h: Handler, cargo: Cargo, answers: seq<string>): (r: Handled)
    ensures r.Moved? ==> |r.answers| <= |answers|
  {
    match h
    case StartTransitions =>
      if answers == [] then HandlerFailed(NoAnswer)
      else Moved(StartTransitionsOf(answers[0], cargo), answers[1..], [])
    case ReadContextTransitions =>
      (match ReadContextTransitionsOf(cargo)
       case None => HandlerFailed(NotUnpackable)
       case Some(t) => Moved(t, answers, [cargo]))
    case EndState =>
      (match EndStateOf(cargo)
       case None => HandlerFailed(FormatError)
       case Some(t) => Moved(t, answers, []))
  }

  /** The fields of a `StateMachine`. */
  datatype Machine = Machine(handlers: map<string, Handler>, startState: Option<string>, endStates: seq<string>)

  /** `StateMachine()`. */
  const Empty: Machine := Machine(map[], None, [])

  /** `add_state(name, handler, end_state)`: the handler is stored under the
      upper-cased name, which is recorded as an end state when `end_state`
      is truthy. */
  function AddState(m: Machine, name: string, handler: Handler, endState: int): (r: Machine)
    ensures r.handlers.Keys == m.handlers.Keys + {Upper(name)}
    ensures r.handlers[Upper(name)] == handler
    ensures forall k :: k in m.handlers && k != Upper(name) ==> r.handlers[k] == m.handlers[k]
    ensures r.startState == m.startState
    ensures endState == 0 ==> r.endStates == m.endStates
    ensures endState != 0 ==> r.endStates == m.endStates + [Upper(name)]
  {
    m.(handlers := m.handlers[Upper(name) := handler],
       endStates := if endState != 0 then m.endStates + [Upper(name)] else m.endStates)
  }

  /** A registered state is found under any case spelling of its name. */
  lemma AddStateCaseInsensitive(m: Machine, name: string, handler: Handler, endState: int, spelling: string)
    requires Upper(spelling) == Upper(name)
    ensures Upper(spelling) in AddState(m, name, handler, endState).handlers
    ensures AddState(m, name, handler, endState).handlers[Upper(spelling)] == handler
    ensures Upper(Lower(spelling)) in AddState(m, name, handler, endState).handlers
  {
    UpperIgnoresCase(spelling);
  }

  /** `set_start(name)`. */
  function SetStart(m: Machine, name: string): (r: Machine)
    ensures r.startState == Some(Upper(name)) && r.handlers == m.handlers && r.endStates == m.endStates
  {
    m.(startState := Some(Upper(name)))
  }

  /** How `run(cargo)` ends: an end state reached (named as the handler
      named it), or an exception; `trace` is the states whose handlers ran,
      `calls` the calls `read_context_transitions` made. `OutOfFuel` is the
      model's bound on handler calls. */
  datatype RunOutcome =
    | Reached(state: string, cargo: Cargo, trace: seq<string>, calls: seq<Cargo>)
    | Failed(error: FsmError, trace: seq<string>, calls: seq<Cargo>)
    | OutOfFuel(trace: seq<string>, calls: seq<Cargo>)

  /** The `while True` loop of `run`, from the state `name` whose handler is `h`. */
  function Loop(m: Machine, name: string, h: Handler, cargo: Cargo, answers: seq<string>,
                trace: seq<string>, calls: seq<Cargo>, fuel: nat): RunOutcome
    decreases fuel
  {
    if fuel == 0 then OutOfFuel(trace, calls)
    else
      var trace' := trace + [name];
      match Handle(h, cargo, answers)
      case HandlerFailed(e) => Failed(e, trace', calls)
      case Moved(t, rest, called) =>
        var next := Upper(t.next);
        if next in m.endStates then Reached(t.next, t.cargo, trace', calls + called)
        else if next !in m.handlers then Failed(UnknownState(next), trace', calls + called)
        else Loop(m, next, m.handlers[next], t.cargo, rest, trace', calls + called, fuel - 1)
  }

  /** `run(cargo)` with at most `fuel` handler calls. */
  function Run(m: Machine, cargo: Cargo, answers: seq<string>, fuel: nat): RunOutcome
  {
    if m.startState.None? || m.startState.value !in m.handlers then Failed(NotStarted, [], [])
    else if m.endStates == [] then Failed(NoEndState, [], [])
    else Loop(m, m.startState.value, m.handlers[m.startState.value], cargo, answers, [], [], fuel)
  }

  /** `run` stops exactly at the first state named that is an end state: the
      state reached is one, and no handler of an end state ran except
      possibly the start state's. */
  lemma {:induction false} LoopStopsAtEndState(m: Machine, name: string, h: Handler, cargo: Cargo, answers: seq<string>,
                                               trace: seq<string>, calls: seq<Cargo>, fuel: nat)
    requires forall i :: 1 <= i < |trace| ==> trace[i] !in m.endStates
    requires trace != [] ==> name !in m.endStates
    ensures var o := Loop(m, name, h, cargo, answers, trace, calls, fuel);
      && |o.trace| >= |trace| && o.trace[..|trace|] == trace
      && (o.Reached? ==> Upper(o.state) in m.endStates)
      && (forall i :: 1 <= i < |o.trace| ==> o.trace[i] !in m.endStates)
    decreases fuel
  {
    if fuel > 0 {
      var trace' := trace + [name];
      assert forall i :: 1 <= i < |trace'| ==> trace'[i] !in m.endStates by {
        forall i | 1 <= i < |trace'| ensures trace'[i] !in m.endStates {
          if i < |trace| {
            assert trace'[i] == trace[i];
          }
        }
      }
      match Handle(h, cargo, answers)
      case HandlerFailed(e) =>
      case Moved(t, rest, called) =>
        var next := Upper(t.next);
        if next !in m.endStates && next in m.handlers {
          LoopStopsAtEndState(m, next, m.handlers[next], t.cargo, rest, trace', calls + called, fuel - 1);
          var o := Loop(m, next, m.handlers[next], t.cargo, rest, trace', calls + called, fuel - 1);
          assert o.trace[..|trace'|] == trace';
          assert o.trace[..|trace|] == trace'[..|trace|] == trace;
        }
    }
  }

  lemma RunStopsAtEndState(m: Machine, cargo: Cargo, answers: seq<string>, fuel: nat)
    ensures var o := Run(m, cargo, answers, fuel);
      && (o.Reached? ==> Upper(o.state) in m.endStates)
      && (forall i :: 1 <= i < |o.trace| ==> o.trace[i] !in m.endStates)
  {
    if m.startState.Some? && m.startState.value in m.handlers && m.endStates != [] {
      LoopStopsAtEndState(m, m.startState.value, m.handlers[m.startState.value], cargo, answers, [], [], fuel);
    }
  }

  /** `run` refuses to start without a start state that has a handler, and
      then without an end state; a started run never fails with either. */
  lemma RunChecksInitialisation(m: Machine, cargo: Cargo, answers: seq<string>, fuel: nat)
    ensures Run(m, cargo, answers, fuel) == Failed(NotStarted, [], []) <==>
      m.startState.None? || m.startState.value !in m.handlers
    ensures Run(m, cargo, answers, fuel) == Failed(NoEndState, [], []) <==>
      m.startState.Some? && m.startState.value in m.handlers && m.endStates == []
  {
    if m.startState.Some? && m.startState.value in m.handlers && m.endStates != [] {
      var start := m.startState.value;
      if fuel > 0 {
        match Handle(m.handlers[start], cargo, answers)
        case HandlerFailed(e) =>
        case Moved(t, rest, called) =>
          var next := Upper(t.next);
          if next !in m.endStates && next in m.handlers {
            LoopStopsAtEndState(m, next, m.handlers[next], t.cargo, rest, [start], [] + called, fuel - 1);
            assert [] + [start] == [start];
            var o := Loop(m, next, m.handlers[next], t.cargo, rest, [start], [] + called, fuel - 1);
            assert Run(m, cargo, answers, fuel) == Loop(m, start, m.handlers[start], cargo, answers, [], [], fuel) == o;
            assert o.trace != [];
          }
      }
    }
  }

  /** The machine the module sets up: "Start", "read_context_state", and
      "end_state" as the only end state; "Start" starts. */
  function ModuleMachine(): Machine
  {
    var m1 := AddState(Empty, "Start", StartTransitions, 0);
    var m2 := AddState(m1, "read_context_state", ReadContextTransitions, 0);
    var m3 := AddState(m2, "end_state", EndState, 1);
    SetStart(m3, "Start")
  }

  lemma ModuleMachineShape()
    ensures ModuleMachine() == Machine(
      map["START" := StartTransitions, "READ_CONTEXT_STATE" := ReadContextTransitions, "END_STATE" := EndState],
      Some("START"), ["END_STATE"])
  {
    assert Upper("Start") == "START";
    assert Upper("read_context_state") == "READ_CONTEXT_STATE";
    assert Upper("end_state") == "END_STATE";
  }

  /** In the module's machine, answering "2" names `new_keyword_state`,
      which is not registered: the run fails on that lookup. */
  lemma ModuleMachineNewKeywordFails(answer: string, rest: seq<string>, cargo: Cargo, fuel: nat)
    requires StartsWith(StripSpace(Upper(answer)), "2") && fuel > 0
    ensures Run(ModuleMachine(), cargo, [answer] + rest, fuel) == Failed(UnknownState("NEW_KEYWORD_STATE"), ["START"], [])
  {
    ModuleMachineShape();
    assert !StartsWith(StripSpace(Upper(answer)), "1");
    assert Upper("new_keyword_state") == "NEW_KEYWORD_STATE";
  }

  /** In the module's machine, answering "1" with a call as cargo makes that
      call once and reaches the end state without running its handler. */
  lemma ModuleMachineReadContext(answer: string, rest: seq<string>, keyword: string, buf: seq<string>, fuel: nat)
    requires StartsWith(StripSpace(Upper(answer)), "1") && fuel > 1
    ensures Run(ModuleMachine(), Call(keyword, buf), [answer] + rest, fuel)
      == Reached("end_state", Call(keyword, buf), ["START", "READ_CONTEXT_STATE"], [Call(keyword, buf)])
  {
    ModuleMachineShape();
    assert Upper("read_context_state") == "READ_CONTEXT_STATE";
    assert Upper("end_state") == "END_STATE";
    var m := ModuleMachine();
    assert Loop(m, "START", StartTransitions, Call(keyword, buf), [answer] + rest, [], [], fuel)
      == Loop(m, "READ_CONTEXT_STATE", ReadContextTransitions, Call(keyword, buf), rest, ["START"], [], fuel - 1);
  }

  /** In the module's machine, any other answer reaches the end state at
      once, without a call and without running the end state's handler. */
  lemma ModuleMachineAbort(answer: string, rest: seq<string>, cargo: Cargo, fuel: nat)
    requires !StartsWith(StripSpace(Upper(answer)), "1") && !StartsWith(StripSpace(Upper(answer)), "2") && fuel > 0
    ensures Run(ModuleMachine(), cargo, [answer] + rest, fuel) == Reached("end_state", cargo, ["START"], [])
  {
    ModuleMachineShape();
    assert Upper("end_state") == "END_STATE";
  }

  // ---------------------------------------------------------------------------
  // the machine as an object

  class StateMachine {
    var handlers: map<string, Handler>
    var startState: Option<string>
    var endStates: seq<string>

    constructor()
      ensures Snapshot() == Empty
    {
      handlers, startState, endStates := map[], None, [];
    }

    function Snapshot(): Machine
      reads this
    {
      Machine(handlers, startState, endStates)
    }

    /** `add_state(name, handler, end_state)`. */
    method AddStateTo(name: string, handler: Handler, endState: int)
      modifies this
      ensures Snapshot() == AddState(old(Snapshot()), name, handler, endState)
    {
      var key := Upper(name);
      handlers := handlers[key := handler];
      if endState != 0 {
        endStates := endStates + [key];
      }
    }

    /** `set_start(name)`. */
    method SetStartTo(name: string)
      modifies this
      ensures Snapshot() == SetStart(old(Snapshot()), name)
    {
      startState := Some(Upper(name));
    }

    /** `run(cargo)`, with the prompt's replies and at most `fuel` handler calls. */
    method RunMachine(cargo: Cargo, answers: seq<string>, fuel: nat) returns (o: RunOutcome)
      ensures o == Run(Snapshot(), cargo, answers, fuel)
    {
      if startState.None? || startState.value !in handlers {
        return Failed(NotStarted, [], []);
      }
      if endStates == [] {
        return Failed(NoEndState, [], []);
      }
      var name := startState.value;
      var handler := handlers[name];
      var current, queue := cargo, answers;
      var trace: seq<string>, calls: seq<Cargo> := [], [];
      var left := fuel;
      while true
        invariant Loop(Snapshot(), name, handler, current, queue, trace, calls, left) == Run(Snapshot(), cargo, answers, fuel)
        decreases left
      {
        if left == 0 {
          return OutOfFuel(trace, calls);
        }
        trace := trace + [name];
        var result := Handle(handler, current, queue);
        if result.HandlerFailed? {
          return Failed(result.error, trace, calls);
        }
        var next := Upper(result.t.next);
        calls := calls + result.called;
        if next in endStates {
          return Reached(result.t.next, result.t.cargo, trace, calls);
        }
        if next !in handlers {
          return Failed(UnknownState(next), trace, calls);
        }
        name, handler, current, queue := next, handlers[next], result.t.cargo, result.answers;
        left := left - 1;
      }
    }
  }
}
