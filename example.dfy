/**
 The two example steps bound to `example_fsm`: step one is constructed with
 the "initial" flag, both `init` hooks do nothing, step one's `routine`
 requests step two and step two's `routine` requests step one. From the
 zero-initialised machine the ticks fire init(one), routine(one), init(two),
 routine(two) and then repeat with period four.
 */
module Example {
  import opened FsmSpec
  import opened Fsm

  /** The hooks of the two example steps. */
  function ExampleHooks<S(==)>(one: S, two: S): Hooks<S>
  {
    Hooks(s => [],
          s => if s == one then [SetStepCall(Some(two))]
               else if s == two then [SetStepCall(Some(one))]
               else [])
  }

  /** The hooks fired by four consecutive ticks, repeated forever. */
  function ExamplePattern<S>(one: S, two: S): seq<Event<S>>
  {
    [Init(one), Routine(one), Init(two), Routine(two)]
  }

  /** The machine once both steps are constructed: step one is current and initial. */
  function ExampleStart<S(==)>(one: S): Config<S>
  {
    Fresh<S>().SetStep(Some(one))
  }

  /** The machine after `n` ticks from `ExampleStart`. */
  function ExampleState<S(==)>(one: S, two: S, n: nat): Config<S>
  {
    if n == 0 then ExampleStart(one)
    else if n % 4 == 1 then Config(Some(one), Some(one), Some(one))
    else if n % 4 == 2 then Config(Some(two), Some(one), Some(one))
    else if n % 4 == 3 then Config(Some(two), Some(two), Some(one))
    else Config(Some(one), Some(two), Some(one))
  }

  /** Tick `k` of the example fires `ExamplePattern[k % 4]`, for every `k`. */
  lemma {:induction false} ExampleTrace<S>(one: S, two: S, n: nat)
    requires one != two
    ensures Ticks(ExampleStart(one), ExampleHooks(one, two), n).0 == ExampleState(one, two, n)
    ensures |Ticks(ExampleStart(one), ExampleHooks(one, two), n).1| == n
    ensures forall k :: 0 <= k < n ==>
              Ticks(ExampleStart(one), ExampleHooks(one, two), n).1[k] == ExamplePattern(one, two)[k % 4]
  {
    if n > 0 {
      ExampleTrace(one, two, n - 1);
      var before := Ticks(ExampleStart(one), ExampleHooks(one, two), n - 1);
      var after := before.0.Tick(ExampleHooks(one, two));
      var r := (n - 1) % 4;
      assert n % 4 == (r + 1) % 4;
      var hooks := ExampleHooks(one, two);
      if r == 1 {
        assert hooks.routine(one) == [SetStepCall(Some(two))];
        assert before.0.Perform([SetStepCall(Some(two))]) == before.0.SetStep(Some(two));
      } else if r == 3 {
        assert hooks.routine(two) == [SetStepCall(Some(one))];
        assert before.0.Perform([SetStepCall(Some(one))]) == before.0.SetStep(Some(one));
      }
      assert after.1 == ExamplePattern(one, two)[r];
      assert after.0 == ExampleState(one, two, n);
    }
  }

  /**
   The example program run for `ticks` passes of its super loop: construct
   the machine and the two steps in declaration order, then tick. Returns the
   two steps and the hooks fired.
   */
  method SuperLoop(ticks: nat) returns (one: Step, two: Step, events: seq<Event<Step>>)
    ensures one != two && one.fsm == two.fsm
    ensures |events| == ticks
    ensures forall k :: 0 <= k < ticks ==> events[k] == ExamplePattern(one, two)[k % 4]
  {
    var fsm := new Machine();
    one := new Step(fsm, true);
    two := new Step(fsm, false);
    var hooks := ExampleHooks(one, two);
    events := [];
    var i := 0;
    while i < ticks
      invariant 0 <= i <= ticks
      invariant (fsm.Cfg(), events) == Ticks(ExampleStart(one), hooks, i)
    {
      var e := fsm.Tick(hooks);
      events := events + [e];
      i := i + 1;
    }
    ExampleTrace(one, two, ticks);
  }
}
