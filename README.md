# go-fsm in Dafny

This is a model of the `fsm` Go package. The package is a deterministic finite-state machine engine (a Mealy machine). A table of transitions maps each (input, current state) pair to a next state and an optional handler.

- `New` builds the machine from the table in one batch. It rejects an empty table and rejects a table that lists the same (input, current state) pair twice. The machine starts in the current state of the table's first row.
- `Do` offers one input to the machine. If the pair (input, current state) is not registered, it reports an `InputError`. If the entry's handler fails, it returns that error. Otherwise it moves the machine to the entry's next state.

Files:

- `fsm.dfy`, module `Fsm`, models `fsm.go`:
  - the data types: `Transition`, `Entry` (the Go `state` record), `Error` (`InputError`, `StateError`, and `Text` for values made with `errors.New`) and the nested registry map;
  - class `Machine`, the Go `FSM`, with its mutable `state` field and its `inputs` registry;
  - `Machine.On`, which registers one transition;
  - `Machine.Do`, which takes one step;
  - `New`, the batch construction loop;
  - reference definitions of what a correctly built registry is: `Distinct`, `FirstConflict` and `Tabulates`, with lemmas about them.
- `fsm_test.dfy`, module `FsmTests`, models the turnstile scenarios of `fsm_test.go`. Each is a method whose postcondition follows from the contracts of `New` and `Do` alone.

States and inputs are integers, as in Go. No arithmetic is done on them, so the Go width does not matter. In `fsm_test.go` the states and the inputs are declared in one `const` block, so `iota` keeps counting: Locked = 0, Unlocked = 1, Coin = 2, Push = 3. The model uses the same values.

A handler is represented by an identity, `Option<HandlerId>`. `Do` gets the outcome of each handler for this call as a parameter `run`. It returns the list of handlers it actually invoked as `called`. This is how the contract states that a handler is run at most once, and never on a failed lookup.

`fsm.go` has no public registration API. Its registration method `on` (fsm.go:87) is unexported, only `New` calls it, and it returns an error rather than panicking. So the model has no builder.

## Model

| member | source | states |
|---|---|---|
| `Fsm.Insert` | fsm.go:109-110 | Adding an entry binds exactly the given (input, current) pair to it; every other pair looks up as before |
| `Fsm.Machine.constructor` | fsm.go:73-76 | A machine starts in the given state with an empty registry |
| `Fsm.Machine.On` | fsm.go:87-112 | An already registered pair is rejected with `StateError{input, current, next}` and leaves the registry unchanged; a new pair adds exactly that one entry; the state is never touched |
| `Fsm.Machine.Do` | fsm.go:114-131 | Unregistered pair: `InputError{input, state}`, no handler run, state unchanged. A failing handler: exactly its error, state unchanged. No handler or a successful one: nil, and state becomes the entry's next. The handler runs once when present and otherwise not at all; the registry is never modified |
| `Fsm.New` | fsm.go:70-85 | Returns a machine exactly when the error is nil. An empty table gives "empty transitions". A machine is returned iff the table is non-empty and has no repeated (input, current) pair. The machine starts in row 0's current state, and its registry holds exactly the table's rows. Otherwise the error is the `StateError` of the first row that repeats an earlier pair |
| `Fsm.ConflictWithin` | fsm.go:77-80 | If two of the first n rows share a pair, one of those rows is the first conflicting row of the table |
| `Fsm.ConflictExists` | fsm.go:77-80 | A table with a repeated (input, current) pair has a first conflicting row, so `New` reports a `StateError` for it |
| `Fsm.FirstConflictUnique` | fsm.go:77-80 | At most one row is the first conflicting row, so the reported conflict is determined by the table |
| `Fsm.ConflictIffNotDistinct` | fsm.go:77-82 | A table has no repeated pair iff no row is a first conflicting row: `New` fails on a conflict exactly when the table is not deterministic |
| `Fsm.TabulatesDetermines` | fsm.go:94-110 | Two registries that both hold exactly a table's rows answer every lookup alike, so the registry `New` builds is determined by the table |
| `FsmTests.TestNonDeterministic` | fsm_test.go:19-37 | A second (Push, Locked) row makes `New` return no machine and `StateError{Push, Locked, Unlocked}` |
| `FsmTests.TestInput` | fsm_test.go:39-67 | From Locked, Coin, Coin, Push, Push all succeed and visit Unlocked, Unlocked, Locked, Locked (the last is the self-loop) |
| `FsmTests.TestInputUnexpected` | fsm_test.go:69-89 | Without a (Push, Locked) row, Push in Locked gives `InputError{Push, Locked}` and the state stays Locked |
| `FsmTests.TestTransition` | fsm_test.go:91-112 | Push, Coin, Push from Locked runs the handler of (Push, Unlocked) exactly once |
| `FsmTests.TestTransitionFailed` | fsm_test.go:114-131 | A handler failing with "invalid coin" on (Coin, Locked) makes `Do` return that error, and the state stays Locked |

## Left out

- `InputError.Error` and `StateError.Error` (fsm.go:58-68): they only format text with `fmt.Sprintf`. The model keeps the error values and their fields.
- Handler bodies: Go closures with arbitrary side effects. A handler is an identity, and its outcome for one call is the parameter `run`. Effects such as the counter in `fsm_test.go` are reconstructed from the `called` output. Some handlers write the exported `State` field, or call `Do` on their own machine, while they run (fsm.go:119 comes before fsm.go:123). Such handlers are outside the model. `Do`'s "state unchanged" clauses hold only for handlers that do neither.
- The registry is a nested map of values. The Go pointers `*transition` and `*state` are not modelled; each is owned by one machine and never shared, so no aliasing is lost.
- Calls on a nil `*FSM` and concurrent calls are not modelled. The package promises nothing about either.
- `example/main.go` is demo glue that prints and exits. It is not part of this model.
