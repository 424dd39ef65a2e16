# cpp_fsm: a cooperative finite-state-machine runner, modelled in Dafny

The runner drives a bare-metal super loop. A machine (`cpp_fsm`) holds three
nullable step pointers: `step` is the current step, `prev_step` is the last
step whose `init` ran, and `init_step` is the initial step. Every pass of the
host loop calls the machine's tick (`cpp_fsm::routine`):

- with no current step, nothing happens;
- when `step != prev_step`, the step's `init` hook runs, and then `prev_step`
  latches whatever `step` is at that moment;
- otherwise the step's `routine` hook runs.

Hooks request transitions by calling `set_step` on their machine. The request
takes effect on the next tick. `set_step` fills `init_step` only while it is
null. `reset` makes `init_step` current again and leaves `prev_step` alone. A
step (`cpp_fsm_step`) is bound to one machine for life. Its constructor calls
`set_step(this)` when its flag is set.

The project has three files:

- `fsm_spec.dfy`, module `FsmSpec`. The three pointers are a value
  `Config<S>`, generic over the step identity `S`; a null pointer is `None`.
  It defines `set_step` (`Config.SetStep`, main.cpp lines 67-74), `reset`
  (`Config.Reset`, lines 92-95), the calls a hook makes (`Config.Perform`,
  the hook bodies run at lines 82 and 87), one tick (`Config.Tick`, lines
  76-90, returning the `Event` fired), finite runs (`Exec`, `Ticks`), and the
  lemmas about them.
- `fsm.dfy`, module `Fsm`. Class `Machine` has the three fields and a ghost
  `trace` of fired hooks. Class `Step` has its `const fsm` back-reference. A
  step's identity is the `Step` object itself, as in C++. Every method's
  postcondition ties the new fields to the `FsmSpec` function of the old ones.
- `example.dfy`, module `Example`. These are the two example steps of
  `main.cpp`; their hooks are `ExampleHooks` (lines 106-131). Step one is
  constructed with the flag. Each `routine` requests
  the other step. A bounded run of the super loop fires `init(one)`,
  `routine(one)`, `init(two)`, `routine(two)` with period four.

Hook behaviour is a parameter, `Hooks<S>`. For each step it gives the
sequence of `set_step`/`reset` calls the step's `init` and `routine` make, in
order. A step that does not override `init` makes no calls there.

Two details of the code are easy to misread:

- A null argument to `set_step` does not claim the initial slot (lines
  70-73). The initial step is the first *non-null* argument, not the argument
  of the first call (`InitStepIsFirstNonNull`).
- After `reset`, the next tick compares `prev_step` with `init_step`. It does
  not compare the step that was current before the reset (line 80). So a
  reset made after the initial step's `routine` requested another step, but
  before that step's `init` ran, leads to `routine`, not `init`, of the
  initial step (`ResetThenTick`).

The machine starts with all three pointers null. That is what the static,
zero-initialised `example_fsm` gets. The empty constructor `cpp_fsm(){}`
leaves the pointers indeterminate for a non-static object.

## Model

| member | source | states |
|---|---|---|
| `FsmSpec.Config.SetStep` | source/main/main.cpp:67-74 | defines `set_step` on the three references; its properties are `SetStepEffect` and `InitStepIsFirstNonNull` |
| `FsmSpec.Config.Reset` | source/main/main.cpp:92-95 | defines `reset`; its properties are `ResetThenTick` and `ResetIdempotent` |
| `FsmSpec.Config.Perform` | source/main/main.cpp:82-87 | defines the effect of a hook body's `set_step`/`reset` calls, made in order; its properties are `PerformKeepsInitStep`, `PerformKeepsPrevStep` and `InitStepIsFirstNonNull` |
| `FsmSpec.Config.Tick` | source/main/main.cpp:76-90 | defines one tick and the hook it fires; its properties are the `Tick…`, `InitThenRoutine` and `RoutineRequestDeferred` lemmas |
| `Example.ExampleHooks` | source/main/main.cpp:106-131 | defines the example steps' hooks: both `init`s make no calls, step one's `routine` requests step two and step two's requests step one; `ExampleTrace` states what they do |
| `FsmSpec.SetStepEffect` | source/main/main.cpp:67-74 | `set_step(s)` makes `s` current and keeps `prev_step`. `init_step` becomes `s` only if it was null, otherwise it stays |
| `FsmSpec.InitStepIsFirstNonNull` | source/main/main.cpp:67-74 | after any series of `set_step`/`reset` calls, `init_step` is the one already held, or else the first non-null `set_step` argument (checked against an independent front-to-back search) |
| `FsmSpec.PerformKeepsInitStep` | source/main/main.cpp:70-73 | once `init_step` is non-null, no `set_step` or `reset` call changes it |
| `FsmSpec.PerformKeepsPrevStep` | source/main/main.cpp:67-74 | no `set_step` or `reset` call touches `prev_step`; only the tick's latch does |
| `FsmSpec.InitStepNeverChanges` | source/main/main.cpp:67-95 | once `init_step` is non-null, no finite run of `set_step`, `reset` and ticks (hook calls included) changes it |
| `FsmSpec.ReachableIsInvariant` | source/main/main.cpp:67-95 | "a current or latched step implies an initial step" holds of the all-null machine and is kept by every operation |
| `FsmSpec.TickWithoutStep` | source/main/main.cpp:76-78 | a tick with a null current step fires nothing and leaves all three pointers unchanged |
| `FsmSpec.TickRunsInitOnChange` | source/main/main.cpp:80-84 | when `step != prev_step` the tick fires only `init` of the current step. `prev_step` and `step` then both equal the step current when `init` returns. `init_step` of a reachable machine stays. With no calls from `init`, only `prev_step` changes |
| `FsmSpec.InitThenRoutine` | source/main/main.cpp:80-88 | after an `init` that leaves step `o` current, the next tick fires `routine(o)`. This covers `o` being the step itself (init before routine) and `o` being a step `init` redirected to (its `init` is skipped) |
| `FsmSpec.TickRunsRoutineOtherwise` | source/main/main.cpp:85-88 | when `step == prev_step` the tick fires only `routine`. `prev_step` stays, and so does `init_step` of a reachable machine. With no calls from `routine`, the machine is unchanged |
| `FsmSpec.RoutineRequestDeferred` | source/main/main.cpp:67-88 | a step `o` requested from `routine(s)` is not run on that tick. The next tick fires `init(o)` when `o != s`, and `routine(s)` again when `o == s` |
| `FsmSpec.ResetThenTick` | source/main/main.cpp:76-95 | `reset` sets `step := init_step` and keeps the other two. The next tick fires nothing if `init_step` is null, `routine` if `prev_step == init_step`, and `init` otherwise |
| `FsmSpec.ResetIdempotent` | source/main/main.cpp:92-95 | two resets in a row leave the machine as one does |
| `Fsm.Machine.constructor` | source/main/main.cpp:52 | a new machine has all three pointers null and an empty trace |
| `Fsm.Machine.SetStep` | source/main/main.cpp:67-74 | the fields after `set_step` are exactly `Config.SetStep` of those before; the trace is unchanged |
| `Fsm.Machine.Reset` | source/main/main.cpp:92-95 | the fields after `reset` are exactly `Config.Reset` of those before |
| `Fsm.Machine.RunHook` | source/main/main.cpp:123-131 | running a hook body's calls one after another leaves the fields equal to `Config.Perform` of the calls |
| `Fsm.Machine.Tick` | source/main/main.cpp:76-90 | the fields and the fired event after a tick are exactly `Config.Tick` of the fields before; the event is appended to the trace |
| `Fsm.Step.constructor` | source/main/main.cpp:58-65 | the step is bound to `fsm`. With the flag set, the machine takes `set_step(this)`; without it, the machine is unchanged |
| `Example.ExampleTrace` | source/main/main.cpp:103-131 | from the machine after constructing the two example steps, tick `k` fires `init(one)`, `routine(one)`, `init(two)`, `routine(two)` as `k % 4` is 0, 1, 2, 3, and the state after `n` ticks is the one for `n` |
| `Example.SuperLoop` | source/main/main.cpp:101-151 | constructing the example machine and steps, then running `ticks` passes of the super loop, yields two distinct steps bound to the same machine and exactly `ticks` events following the period-4 pattern |

## Left out

- `main`'s `for(;;)` loop never terminates. `SuperLoop` runs a given finite number of passes instead.
- The `__asm` entry-point workaround for the ARM toolchain and the unused `stdio.h`/`string.h` includes are build details with no behaviour.
- Virtual dispatch is replaced by the `Hooks` parameter. A hook's effect is the sequence of `set_step`/`reset` calls it makes, and it depends only on the step's identity. Steps with their own mutable data, and hooks with other side effects, are not modelled. Neither is a hook that throws: in C++ an exception from `init` propagates before `prev_step` latches (lines 82-83), and the model has no such path.
- A hook's calls are applied to the machine being ticked. A step bound to one machine but made current on another is not modelled: in C++ its hooks would act on its own machine.
- A hook that ticks its own machine again (a re-entrant `routine` call) is not modelled. Neither is a hook that never returns.
- The empty `cpp_fsm(){}` constructor leaves the pointers of a non-static machine indeterminate. The model starts from all-null pointers, as the static `example_fsm` does.
- Static initialisation order between `example_fsm` and the example steps is not modelled. `SuperLoop` constructs them in declaration order.
