/**
 A deterministic finite-state machine (a Mealy machine): a registry of
 transitions keyed by (input, current state), built in one batch by `New`,
 and a machine whose only mutable field is its current state, advanced by `Do`.
 */
module Fsm {

  datatype Option<+T> = None | Some(value: T)

  /** States and inputs are plain integers, as in the Go package. */
  type State = int
  type Input = int

  /** The identity of a handler closure; its body is not part of the model. */
  type HandlerId = int

  /** The errors the package produces, and the opaque errors built with `errors.New`. */
  datatype Error =
    | InputError(input: Input, current: State)
    | StateError(input: Input, current: State, next: State)
    | Text(message: string)

  /** One row of the transition table. */
  datatype Transition = Transition(input: Input, current: State, next: State, handler: Option<HandlerId>)

  /** What the registry stores for a registered (input, current state) pair. */
  datatype Entry = Entry(next: State, handler: Option<HandlerId>)

  /** input -> current state -> entry, nested as in the Go package. */
  type Registry = map<Input, map<State, Entry>>

  function KeyOf(t: Transition): (Input, State) {
    (t.input, t.current)
  }

  function EntryOf(t: Transition): Entry {
    Entry(t.next, t.handler)
  }

  /** The entry registered for (input, current), if any. */
  function Lookup(reg: Registry, input: Input, current: State): Option<Entry> {
    if input in reg && current in reg[input] then Some(reg[input][current]) else None
  }

  /** The registry with one more entry: exactly (input, current) is (re)bound, every other pair is untouched. */
  function Insert(reg: Registry, input: Input, current: State, e: Entry): (r: Registry)
    ensures Lookup(r, input, current) == Some(e)
    ensures forall i, c :: (i, c) != (input, current) ==> Lookup(r, i, c) == Lookup(reg, i, c)
  {
    var currents := if input in reg then reg[input] else map[];
    reg[input := currents[current := e]]
  }

  // ---------------------------------------------------------------------------
  // Reference definitions for batch construction

  /** The (input, current) pairs of the first n rows of the table. */
  ghost function KeysBefore(ts: seq<Transition>, n: nat): set<(Input, State)>
    requires n <= |ts|
  {
    set k | 0 <= k < n :: KeyOf(ts[k])
  }

  /** No two of the first n rows share an (input, current) pair. */
  ghost predicate DistinctUpTo(ts: seq<Transition>, n: nat)
    requires n <= |ts|
  {
    forall i, j :: 0 <= i < j < n ==> KeyOf(ts[i]) != KeyOf(ts[j])
  }

  /** The determinism invariant of a whole table. */
  ghost predicate Distinct(ts: seq<Transition>) {
    DistinctUpTo(ts, |ts|)
  }

  /** Row j is the first row whose (input, current) pair already occurs earlier in the table. */
  ghost predicate FirstConflict(ts: seq<Transition>, j: int) {
    && 0 <= j < |ts|
    && DistinctUpTo(ts, j)
    && KeyOf(ts[j]) in KeysBefore(ts, j)
  }

  /** reg holds every one of the first n rows and no pair outside them. */
  ghost predicate TabulatesUpTo(reg: Registry, ts: seq<Transition>, n: nat)
    requires n <= |ts|
  {
    && (forall k :: 0 <= k < n ==> Lookup(reg, ts[k].input, ts[k].current) == Some(EntryOf(ts[k])))
    && (forall i, c :: Lookup(reg, i, c).Some? ==> (i, c) in KeysBefore(ts, n))
  }

  ghost predicate Tabulates(reg: Registry, ts: seq<Transition>) {
    TabulatesUpTo(reg, ts, |ts|)
  }

  /** A table that is not deterministic has a first conflicting row. */
  lemma {:induction false} ConflictExists(ts: seq<Transition>)
    requires !Distinct(ts)
    ensures exists j :: FirstConflict(ts, j)
  {
    ConflictWithin(ts, |ts|);
  }

  lemma {:induction false} ConflictWithin(ts: seq<Transition>, n: nat)
    requires n <= |ts| && !DistinctUpTo(ts, n)
    ensures exists j :: 0 <= j < n && FirstConflict(ts, j)
  {
    if DistinctUpTo(ts, n - 1) {
      var i, j :| 0 <= i < j < n && KeyOf(ts[i]) == KeyOf(ts[j]);
      assert j == n - 1;
      assert KeyOf(ts[j]) in KeysBefore(ts, j);
      assert FirstConflict(ts, n - 1);
    } else {
      ConflictWithin(ts, n - 1);
    }
  }

  /** There is at most one first conflicting row, so the reported conflict is well defined. */
  lemma {:induction false} FirstConflictUnique(ts: seq<Transition>, j1: int, j2: int)
    requires FirstConflict(ts, j1) && FirstConflict(ts, j2)
    ensures j1 == j2
  {
  }

  /** A deterministic table has no conflicting row, and a table with a conflicting row is not deterministic. */
  lemma {:induction false} ConflictIffNotDistinct(ts: seq<Transition>)
    ensures Distinct(ts) <==> forall j :: !FirstConflict(ts, j)
  {
    if !Distinct(ts) {
      ConflictExists(ts);
    }
  }

  /** Two registries that both tabulate the same table answer every lookup alike. */
  lemma {:induction false} TabulatesDetermines(r1: Registry, r2: Registry, ts: seq<Transition>, input: Input, current: State)
    requires Tabulates(r1, ts) && Tabulates(r2, ts)
    ensures Lookup(r1, input, current) == Lookup(r2, input, current)
  {
  }

  // ---------------------------------------------------------------------------
  // The machine

  class Machine {
    /** The current state; the Go field is exported and read by callers. */
    var state: State
    var inputs: Registry

    constructor (initial: State)
      ensures state == initial && inputs == map[]
    {
      state := initial;
      inputs := map[];
    }

    /**
     Registers one transition. A pair that is already registered is
     rejected with a StateError carrying the rejected next state, and the
     registry is left as it was; otherwise exactly that pair is added.
     This is the package-internal registration step, called only by `New`;
     it and `inputs` are unexported in Go.
     */
    method On(input: Input, current: State, next: State, handler: Option<HandlerId>) returns (err: Option<Error>)
      modifies this`inputs
      ensures old(Lookup(inputs, input, current)).Some? ==>
                err == Some(StateError(input, current, next)) && inputs == old(inputs)
      ensures old(Lookup(inputs, input, current)).None? ==>
                err == None && inputs == Insert(old(inputs), input, current, Entry(next, handler))
    {
      var currents := if input in inputs then inputs[input] else map[];
      if current in currents {
        return Some(StateError(input, current, next));
      }
      currents := currents[current := Entry(next, handler)];
      inputs := inputs[input := currents];
      err := None;
    }

    /**
     Offers one input. `run` gives the outcome of each handler for this call;
     `called` lists the handlers actually invoked. An unregistered pair is an
     InputError; a failing handler's error is returned as is; in both cases
     the state is unchanged. Otherwise the state becomes the entry's next state.
     */
    method Do(input: Input, run: HandlerId -> Option<Error>) returns (err: Option<Error>, called: seq<HandlerId>)
      modifies this`state
      ensures Lookup(inputs, input, old(state)).None? ==>
                err == Some(InputError(input, old(state))) && called == [] && state == old(state)
      ensures Lookup(inputs, input, old(state)).Some? ==>
                var e := Lookup(inputs, input, old(state)).value;
                && called == (if e.handler.Some? then [e.handler.value] else [])
                && (e.handler.Some? && run(e.handler.value).Some? ==>
                      err == run(e.handler.value) && state == old(state))
                && (e.handler.None? || run(e.handler.value).None? ==>
                      err == None && state == e.next)
    {
      called := [];
      if input in inputs {
        var currents := inputs[input];
        if state in currents {
          var e := currents[state];
          if e.handler.Some? {
            called := [e.handler.value];
            var failure := run(e.handler.value);
            if failure.Some? {
              return failure, called;
            }
          }
          state := e.next;
          return None, called;
        }
      }
      err := Some(InputError(input, state));
    }
  }

  /**
   Batch construction. An empty table is rejected. Otherwise the machine
   starts in the first row's current state and the rows are registered in
   order; the first conflicting row aborts construction and no machine is
   returned.
   */
  method New(ts: seq<Transition>) returns (m: Machine?, err: Option<Error>)
    ensures (m == null) == err.Some?
    ensures ts == [] ==> err == Some(Text("empty transitions"))
    ensures m != null <==> ts != [] && Distinct(ts)
    ensures m != null ==> fresh(m) && m.state == ts[0].current && Tabulates(m.inputs, ts)
    ensures forall j :: FirstConflict(ts, j) ==> err == Some(StateError(ts[j].input, ts[j].current, ts[j].next))
  {
    if |ts| > 0 {
      var fsm := new Machine(ts[0].current);
      for k := 0 to |ts|
        invariant fsm.state == ts[0].current
        invariant DistinctUpTo(ts, k)
        invariant TabulatesUpTo(fsm.inputs, ts, k)
      {
        var t := ts[k];
        var e := fsm.On(t.input, t.current, t.next, t.handler);
        if e.Some? {
          assert KeyOf(t) in KeysBefore(ts, k);
          assert FirstConflict(ts, k);
          forall j | FirstConflict(ts, j) ensures j == k {
            FirstConflictUnique(ts, j, k);
          }
          return null, e;
        }
        assert KeysBefore(ts, k + 1) == KeysBefore(ts, k) + {KeyOf(t)};
      }
      ConflictIffNotDistinct(ts);
      return fsm, None;
    }
    return null, Some(Text("empty transitions"));
  }
}
