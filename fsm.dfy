/**
 The machine (`cpp_fsm`) and the step (`cpp_fsm_step`) as objects. A step's
 identity is the object itself, as the C++ pointer is; a null pointer is
 `None`. Each method is tied to the value-level semantics in `FsmSpec`, where
 the properties of the operations are proved.
 */
module Fsm {
  import opened FsmSpec

  class Machine {
    var step: Option<Step>
    var prevStep: Option<Step>
    var initStep: Option<Step>
    /** The hooks fired by every tick so far, oldest first. */
    ghost var trace: seq<Event<Step>>

    function Cfg(): Config<Step>
      reads this
    {
      Config(step, prevStep, initStep)
    }

    /** A machine whose three references are null. */
    constructor ()
      ensures step == None && prevStep == None && initStep == None
      ensures Cfg() == Fresh() && trace == []
    {
      step, prevStep, initStep := None, None, None;
      trace := [];
    }

    /** `set_step`: make `s` current; the initial slot takes `s` only while it is empty. */
    method SetStep(s: Option<Step>)
      modifies this
      ensures step == s && prevStep == old(prevStep)
      ensures initStep == if old(initStep) == None then s else old(initStep)
      ensures Cfg() == old(Cfg()).SetStep(s) && trace == old(trace)
    {
      step := s;
      if initStep == None {
        initStep := s;
      }
    }

    /** `reset`: make the initial step current again. */
    method Reset()
      modifies this
      ensures step == old(initStep) && prevStep == old(prevStep) && initStep == old(initStep)
      ensures Cfg() == old(Cfg()).Reset() && trace == old(trace)
    {
      step := initStep;
    }

    /** The body of a hook: its calls on the machine, made one after another. */
    method RunHook(calls: seq<Call<Step>>)
      modifies this
      ensures Cfg() == old(Cfg()).Perform(calls) && trace == old(trace)
    {
      var i := 0;
      while i < |calls|
        invariant 0 <= i <= |calls|
        invariant Cfg() == old(Cfg()).Perform(calls[..i]) && trace == old(trace)
      {
        match calls[i] {
          case SetStepCall(s) => SetStep(s);
          case ResetCall => Reset();
        }
        assert calls[..i + 1][..i] == calls[..i];
        i := i + 1;
      }
      assert calls[..|calls|] == calls;
    }

    /**
     One tick (`cpp_fsm::routine`): nothing without a current step; the
     current step's `init`, then latching the step current when it returns,
     on a change of step; its `routine` otherwise. Returns the hook fired.
     */
    method Tick(hooks: Hooks<Step>) returns (e: Event<Step>)
      modifies this
      ensures (Cfg(), e) == old(Cfg()).Tick(hooks)
      ensures trace == old(trace) + [e]
    {
      if step != None {
        var s := step.value;
        if step != prevStep {
          RunHook(hooks.init(s));
          prevStep := step;
          e := Init(s);
        } else {
          RunHook(hooks.routine(s));
          e := Routine(s);
        }
      } else {
        e := Nothing;
      }
      trace := trace + [e];
    }
  }

  class Step {
    /** The machine this step is bound to, for its whole lifetime. */
    const fsm: Machine

    /** Binds the step to `fsm`; with `makeInitial` it also calls `fsm.set_step(this)`. */
    constructor (fsm: Machine, makeInitial: bool)
      modifies fsm
      ensures this.fsm == fsm
      ensures fsm.Cfg() == if makeInitial then old(fsm.Cfg()).SetStep(Some(this)) else old(fsm.Cfg())
      ensures fsm.trace == old(fsm.trace)
    {
      this.fsm := fsm;
      new;
      if makeInitial {
        fsm.SetStep(Some(this));
      }
    }
  }
}
