/** The life of one service (`service/lifecycle_impl.go`). What the service does is a parameter of `Run`; a
    context is the flag that says whether it is done. */
module ServiceLifecycle {
  import opened Wrappers
  import opened ServicePool

  /** What the service's own code tells its lifecycle, and how that code ends. */
  datatype Act = SayRunning | SayStopping
  datatype Outcome = Fine | Failed(error: Error) | Panicked(value: string)

  function StateOf(a: Act): State { if a.SayRunning? then State.Running else State.Stopping }

  /** The states that the service's own code goes through. */
  function Said(acts: seq<Act>): seq<State> {
    if acts == [] then [] else Said(acts[..|acts| - 1]) + [StateOf(acts[|acts| - 1])]
  }

  /** Every change of state is told to the state listeners first and then to the hooks of that state. */
  datatype Heard = Listener(state: State) | Hook(state: State)

  function Heards(states: seq<State>): seq<Heard> {
    if states == [] then []
    else Heards(states[..|states| - 1]) + [Listener(states[|states| - 1]), Hook(states[|states| - 1])]
  }

  /** What the state listeners hear of it. */
  function Listened(told: seq<Heard>): seq<State> {
    if told == [] then []
    else Listened(told[..|told| - 1]) + if told[|told| - 1].Listener? then [told[|told| - 1].state] else []
  }

  lemma {:induction false} ListenersHearAll(states: seq<State>)
    ensures Listened(Heards(states)) == states
  {
    if states != [] {
      var n := |states| - 1;
      ListenersHearAll(states[..n]);
      var h := Heards(states);
      assert h[..|h| - 1] == Heards(states[..n]) + [Listener(states[n])];
      assert h[..|h| - 1][..|h| - 2] == Heards(states[..n]);
      assert states == states[..n] + [states[n]];
    }
  }

  lemma NothingHeard()
    ensures Heards([]) == []
  {
  }

  lemma {:induction false} HeardsMore(states: seq<State>, s: State)
    ensures Heards(states + [s]) == Heards(states) + [Listener(s), Hook(s)]
  {
    assert (states + [s])[..|states|] == states;
  }

  function ErrorOf(o: Outcome): Option<Error> {
    match o
    case Fine => None
    case Failed(e) => Some(e)
    case Panicked(v) => Some("service paniced (" + v + ")")
  }

  function EndOf(o: Outcome): State { if o.Fine? then State.Stopped else State.Crashed }

  lemma {:induction false} HeardsAt(states: seq<State>)
    ensures |Heards(states)| == 2 * |states|
    ensures forall k | 0 <= k < |states| ::
      Heards(states)[2 * k] == Listener(states[k]) && Heards(states)[2 * k + 1] == Hook(states[k])
  {
    if states != [] { HeardsAt(states[..|states| - 1]); }
  }

  lemma {:induction false} SaidAt(acts: seq<Act>)
    ensures |Said(acts)| == |acts|
    ensures forall k | 0 <= k < |acts| :: Said(acts)[k] == if acts[k].SayRunning? then State.Running else State.Stopping
  {
    if acts != [] { SaidAt(acts[..|acts| - 1]); }
  }

  /** What is heard of a whole run, by position: each state twice, Starting, then the words of the service, then
      Stopped if it ends well and Crashed if not. */
  ghost predicate HeardRun(heard: seq<Heard>, acts: seq<Act>, outcome: Outcome) {
    var n := |acts|;
    && |heard| == 2 * n + 4
    && heard[0] == Listener(State.Starting) && heard[1] == Hook(State.Starting)
    && (forall k | 0 <= k < n ::
          var s := if acts[k].SayRunning? then State.Running else State.Stopping;
          heard[2 * k + 2] == Listener(s) && heard[2 * k + 3] == Hook(s))
    && var end := if outcome.Failed? || outcome.Panicked? then State.Crashed else State.Stopped;
       heard[2 * n + 2] == Listener(end) && heard[2 * n + 3] == Hook(end)
  }

  lemma {:induction false} RunHeard(acts: seq<Act>, outcome: Outcome)
    ensures HeardRun(Heards([State.Starting] + Said(acts) + [EndOf(outcome)]), acts, outcome)
  {
    var states := [State.Starting] + Said(acts) + [EndOf(outcome)];
    SaidAt(acts);
    HeardsAt(states);
    hide Heards, Said;
    var heard := Heards(states);
    assert states[|acts| + 1] == EndOf(outcome) && states[0] == State.Starting;
    assert heard[2 * 0] == Listener(states[0]) && heard[2 * (|acts| + 1)] == Listener(states[|acts| + 1]);
    forall k | 0 <= k < |acts|
      ensures heard[2 * k + 2] == Listener(Said(acts)[k]) && heard[2 * k + 3] == Hook(Said(acts)[k])
    {
      assert states[k + 1] == Said(acts)[k];
      assert heard[2 * (k + 1)] == Listener(states[k + 1]);
    }
  }

  class Lifecycle {
    var state: State
    var lastError: Option<Error>
    var locked: bool              // the mutex was left locked for good
    var cancelled: bool           // the running context
    var ended: Option<bool>       // the wait context, once there is one
    var told: seq<Heard>          // what listeners and hooks were told

    constructor ()
      ensures state == State.Stopped && lastError == None && !locked && !cancelled && ended == None && told == []
    {
      state, lastError, locked, cancelled, ended, told := State.Stopped, None, false, false, None, [];
    }

    /** `states` are the changes since `told` was `base`. */
    method Change(s: State, ghost base: seq<Heard>, ghost states: seq<State>)
      requires !locked && told == base + Heards(states)
      modifies this`state, this`told
      ensures state == s && told == base + Heards(states + [s])
    {
      state := s;
      told := told + [Listener(s)];
      told := told + [Hook(s)];
      HeardsMore(states, s);
      assert told == base + (Heards(states) + [Listener(s), Hook(s)]);
    }

    /** Listeners and hooks hear Starting, what the service says, and then exactly one end, which is Crashed if
        the service fails or panics. A panic is not returned, but kept as the last error. */
    method Run(acts: seq<Act>, outcome: Outcome) returns (err: Option<Error>)
      requires !locked
      modifies this
      ensures told == old(told) + Heards([State.Starting] + Said(acts) + [EndOf(outcome)])
      ensures old(told) <= told && HeardRun(told[|old(told)|..], acts, outcome)
      ensures state == EndOf(outcome) && lastError == ErrorOf(outcome) && ended == Some(true)
      ensures match outcome
        case Fine => state.Stopped? && lastError == None
        case Failed(e) => state.Crashed? && lastError == Some(e)
        case Panicked(v) => state.Crashed? && lastError == Some("service paniced (" + v + ")")
      ensures err == (if outcome.Failed? then Some(outcome.error) else None)
      ensures !locked && cancelled == old(cancelled)
    {
      hide Heards;
      ghost var base, states: seq<State> := told, [];
      assert told == base + Heards(states) by { NothingHeard(); }
      lastError, ended := None, Some(false);
      Change(State.Starting, base, states);
      states := states + [State.Starting];
      for k := 0 to |acts|
        invariant told == base + Heards(states) && states == [State.Starting] + Said(acts[..k])
        invariant !locked && lastError == None && ended == Some(false) && cancelled == old(cancelled)
      {
        assert acts[..k + 1][..k] == acts[..k];
        Change(StateOf(acts[k]), base, states);
        states := states + [StateOf(acts[k])];
      }
      assert acts[..|acts|] == acts;
      if outcome.Fine? {
        Change(State.Stopped, base, states);
      } else {
        lastError := ErrorOf(outcome);
        Change(State.Crashed, base, states);
      }
      ended := Some(true);
      RunHeard(acts, outcome);
      assert told[|old(told)|..] == Heards([State.Starting] + Said(acts) + [EndOf(outcome)]);
      err := if outcome.Failed? then Some(outcome.error) else None;
    }

    /** `None` if the call has to wait. It returns with the mutex held exactly if the service has ended. */
    method Wait() returns (r: Option<Option<Error>>)
      requires !locked
      modifies this`locked
      ensures locked <==> state.Stopped? || state.Crashed?
      ensures r.None? <==> !locked && ended == Some(false)
      ensures r.Some? ==> r.value == if state.Stopped? then None else lastError
    {
      if state.Crashed? { locked := true; return Some(lastError); }
      if state.Stopped? { locked := true; return Some(None); }
      return if ended == Some(false) then None else Some(lastError);
    }

    /** `Stop` asks a service to stop only while it is starting or running, and then waits for it. If the
        service ends before the wait (`meanwhile`), the mutex stays locked. */
    method Stop(meanwhile: Option<State>) returns (waits: bool)
      requires !locked
      modifies this`state, this`cancelled, this`locked
      ensures var asked := old(state).Starting? || old(state).Running?;
        && cancelled == (old(cancelled) || asked)
        && state == (if asked && meanwhile.Some? then meanwhile.value else old(state))
        && (locked <==> asked && (state.Stopped? || state.Crashed?))
        && (waits <==> asked && !locked && ended == Some(false))
    {
      if state.Stopping? || state.Stopped? || state.Crashed? { return false; }
      cancelled := true;
      if meanwhile.Some? { state := meanwhile.value; }
      var r := Wait();
      waits := r.None?;
    }
  }

  // What the pool hears.

  /** Stop tokens the pool's hook sends for these calls, when `recorded` is what it knows. */
  function StopTokens(recorded: State, calls: seq<State>): nat
    decreases |calls|
  {
    if calls == [] then 0
    else StopTokens(calls[0], calls[1..])
         + if calls[0] != recorded && (calls[0].Stopped? || calls[0].Crashed?) then 1 else 0
  }

  predicate Ended(s: State) { s.Stopped? || s.Crashed? }

  lemma {:induction false} TokensOfBody(recorded: State, body: seq<State>, end: State)
    requires !Ended(recorded) && Ended(end) && forall s | s in body :: !Ended(s)
    ensures StopTokens(recorded, body + [end]) == 1
    decreases |body|
  {
    if body == [] {
      assert body + [end] == [end];
    } else {
      assert (body + [end])[1..] == body[1..] + [end];
      TokensOfBody(body[0], body[1..], end);
    }
  }

  lemma {:induction false} SaidNotEnded(acts: seq<Act>)
    ensures forall s | s in Said(acts) :: !Ended(s)
  {
    if acts != [] { SaidNotEnded(acts[..|acts| - 1]); }
  }

  /** Whatever a service does, and whatever the pool knew of it before, one run of its lifecycle makes the
      pool's hook send exactly one stop token. */
  lemma {:induction false} OneTokenPerRun(recorded: State, acts: seq<Act>, outcome: Outcome)
    ensures StopTokens(recorded, Listened(Heards([State.Starting] + Said(acts) + [EndOf(outcome)]))) == 1
  {
    ListenersHearAll([State.Starting] + Said(acts) + [EndOf(outcome)]);
    SaidNotEnded(acts);
    TokensOfBody(State.Starting, Said(acts), EndOf(outcome));
    var calls := [State.Starting] + Said(acts) + [EndOf(outcome)];
    assert calls[1..] == Said(acts) + [EndOf(outcome)];
  }
}
