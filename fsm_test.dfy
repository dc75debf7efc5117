/**
 The turnstile scenarios of the package's tests, stated as methods whose
 postconditions follow from the contracts of `New` and `Do` alone.
 States and inputs share one enumeration, so the inputs continue its count.
 */
module FsmTests {
  import opened Fsm

  const Locked: State := 0
  const Unlocked: State := 1
  const Coin: Input := 2
  const Push: Input := 3

  /** The handler used by the scenarios that attach one. */
  const Counter: HandlerId := 0

  function Succeeds(h: HandlerId): Option<Error> {
    None
  }

  function InvalidCoin(h: HandlerId): Option<Error> {
    Some(Text("invalid coin"))
  }

  function Row(input: Input, current: State, next: State): Transition {
    Transition(input, current, next, None)
  }

  /** The deterministic turnstile: both inputs are legal in both states. */
  function Turnstile(): seq<Transition> {
    [Row(Coin, Locked, Unlocked), Row(Coin, Unlocked, Unlocked), Row(Push, Locked, Locked), Row(Push, Unlocked, Locked)]
  }

  lemma TurnstileDistinct(ts: seq<Transition>)
    requires |ts| == 4
    requires forall k :: 0 <= k < 4 ==> KeyOf(ts[k]) == KeyOf(Turnstile()[k])
    ensures Distinct(ts)
  {
  }

  /** A second row for (Push, Locked) makes construction fail with that row's triple and no machine. */
  method TestNonDeterministic() returns (m: Machine?, err: Option<Error>)
    ensures m == null && err == Some(StateError(Push, Locked, Unlocked))
  {
    var ts := [Row(Coin, Locked, Unlocked), Row(Coin, Unlocked, Unlocked), Row(Push, Locked, Locked),
               Row(Push, Locked, Unlocked), Row(Push, Unlocked, Locked)];
    assert KeyOf(ts[3]) == KeyOf(ts[2]);
    assert FirstConflict(ts, 3);
    m, err := New(ts);
  }

  /** Coin, Coin, Push, Push from Locked all succeed, visiting the states listed. */
  method TestInput() returns (states: seq<State>, errs: seq<Option<Error>>)
    ensures states == [Locked, Unlocked, Unlocked, Locked, Locked]
    ensures errs == [None, None, None, None]
  {
    var ts := Turnstile();
    TurnstileDistinct(ts);
    var m, err := New(ts);
    assert Lookup(m.inputs, ts[0].input, ts[0].current) == Some(EntryOf(ts[0]));
    assert Lookup(m.inputs, ts[1].input, ts[1].current) == Some(EntryOf(ts[1]));
    assert Lookup(m.inputs, ts[2].input, ts[2].current) == Some(EntryOf(ts[2]));
    assert Lookup(m.inputs, ts[3].input, ts[3].current) == Some(EntryOf(ts[3]));
    states, errs := [m.state], [];
    var e, called;
    e, called := m.Do(Coin, Succeeds);
    states, errs := states + [m.state], errs + [e];
    e, called := m.Do(Coin, Succeeds);
    states, errs := states + [m.state], errs + [e];
    e, called := m.Do(Push, Succeeds);
    states, errs := states + [m.state], errs + [e];
    e, called := m.Do(Push, Succeeds);
    states, errs := states + [m.state], errs + [e];
  }

  /** Without a (Push, Locked) row, Push in Locked is an InputError and the state stays Locked. */
  method TestInputUnexpected() returns (err: Option<Error>, state: State)
    ensures err == Some(InputError(Push, Locked)) && state == Locked
  {
    var ts := [Row(Coin, Locked, Unlocked), Row(Coin, Unlocked, Unlocked), Row(Push, Unlocked, Locked)];
    var m, _ := New(ts);
    assert (Push, Locked) !in KeysBefore(ts, |ts|);
    var called;
    err, called := m.Do(Push, Succeeds);
    state := m.state;
  }

  /** Push, Coin, Push from Locked runs the (Push, Unlocked) handler exactly once. */
  method TestTransition() returns (human: nat)
    ensures human == 1
  {
    var ts := Turnstile()[3 := Transition(Push, Unlocked, Locked, Some(Counter))];
    TurnstileDistinct(ts);
    var m, _ := New(ts);
    assert Lookup(m.inputs, ts[0].input, ts[0].current) == Some(EntryOf(ts[0]));
    assert Lookup(m.inputs, ts[2].input, ts[2].current) == Some(EntryOf(ts[2]));
    assert Lookup(m.inputs, ts[3].input, ts[3].current) == Some(EntryOf(ts[3]));
    var e, called;
    e, called := m.Do(Push, Succeeds);
    human := |called|;
    e, called := m.Do(Coin, Succeeds);
    human := human + |called|;
    e, called := m.Do(Push, Succeeds);
    human := human + |called|;
  }

  /** A failing handler on (Coin, Locked) returns its error and leaves the state Locked. */
  method TestTransitionFailed() returns (err: Option<Error>, state: State)
    ensures err == Some(Text("invalid coin")) && state == Locked
  {
    var ts := Turnstile()[0 := Transition(Coin, Locked, Unlocked, Some(Counter))];
    TurnstileDistinct(ts);
    var m, _ := New(ts);
    assert Lookup(m.inputs, ts[0].input, ts[0].current) == Some(EntryOf(ts[0]));
    var called;
    err, called := m.Do(Coin, InvalidCoin);
    state := m.state;
  }
}
