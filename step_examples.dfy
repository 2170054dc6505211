/**
 * The slide-hold-slide schedule of the builder's usage script: a 5 s slide at
 * velocity 1, a slide at velocity 10 over displacement 150, a 10 s hold, then
 * the second and the first step again, sampled at 100, 100 and 10 Hz.
 */
module StepExamples {
  import opened Optional
  import opened Schedule
  import opened VmBuilder

  const Slide1 := Segment(1.0, 5.0, 100.0)
  const Slide2 := Segment(10.0, 15.0, 100.0)
  const Hold3 := Segment(0.0, 10.0, 10.0)

  /** Sample counts, time spans and displacements of the script's three steps. */
  lemma ScriptSteps()
    ensures Count(Slide1) == 500 && Span(Slide1) == 5.0 && Reach(Slide1) == 5.0
    ensures Count(Slide2) == 1500 && Span(Slide2) == 15.0 && Reach(Slide2) == 150.0
    ensures Count(Hold3) == 100 && Span(Hold3) == 10.0 && Reach(Hold3) == 0.0
  {
  }

  /** The script's three steps, built with the setters as the script builds them. */
  method BuildSteps() returns (step1: Step, step2: Step, step3: Step)
    ensures fresh(step1) && fresh(step2) && fresh(step3)
    ensures Expandable(step1.Values()) && step1.Frozen() == Slide1
    ensures Expandable(step2.Values()) && step2.Frozen() == Slide2
    ensures Expandable(step3.Values()) && step3.Frozen() == Hold3
  {
    step1 := new Step();
    step1.duration := Some(5.0);
    step1.SetVelocity(1.0);
    step1.fs := Some(100.0);

    step2 := new Step();
    step2.velocity := Some(10.0);
    step2.SetDisplacement(150.0);
    assert step2.duration.value == 15.0;
    step2.fs := Some(100.0);

    step3 := new Step();
    step3.Hold(10.0);
    step3.fs := Some(10.0);
  }

  /** Adds the first step, with samples, to an empty model. */
  method AddFirstStep(vm: VelocityModel, step: Step)
    requires vm.Valid() && vm.steps == []
    requires Expandable(step.Values()) && Count(step.Frozen()) > 0
    modifies vm
    ensures vm.Valid() && vm.steps != [] && vm.time != []
    ensures |vm.time| == Count(step.Frozen())
    ensures Last(vm.time) == Span(step.Frozen())
    ensures Last(vm.displacement) == Reach(step.Frozen())
  {
    var extended := vm.AddStep(step);
    var s := step.Frozen();
    SegmentEnd([], [], 0.0, 0.0, s);
    assert [] + Ladder(Count(s), s.fs) == [] + Shift(0.0, Ladder(Count(s), s.fs));
    assert [] + Scale(Ladder(Count(s), s.fs), s.velocity) ==
           [] + Shift(0.0, Scale(Ladder(Count(s), s.fs), s.velocity));
  }

  /** Adds a step with samples after a first one that produced samples. */
  method AddLaterStep(vm: VelocityModel, step: Step)
    requires vm.Valid() && vm.steps != [] && vm.time != []
    requires Expandable(step.Values()) && Count(step.Frozen()) > 0
    modifies vm
    ensures vm.Valid() && vm.steps != [] && vm.time != []
    ensures |vm.time| == |old(vm.time)| + Count(step.Frozen())
    ensures Last(vm.time) == Last(old(vm.time)) + Span(step.Frozen())
    ensures Last(vm.displacement) == Last(old(vm.displacement)) + Reach(step.Frozen())
  {
    var time, displacement := vm.time, vm.displacement;
    var extended := vm.AddStep(step);
    SegmentEnd(time, displacement, Last(time), Last(displacement), step.Frozen());
  }

  method SlideHoldSlide() returns (samples: nat, finalTime: real, finalDisplacement: real)
    ensures samples == 4100
    ensures finalTime == 50.0
    ensures finalDisplacement == 310.0
  {
    var step1, step2, step3 := BuildSteps();
    ScriptSteps();
    var vm := new VelocityModel();
    AddFirstStep(vm, step1);
    AddLaterStep(vm, step2);
    AddLaterStep(vm, step3);
    AddLaterStep(vm, step2);
    AddLaterStep(vm, step1);
    samples := |vm.time|;
    finalTime := vm.time[|vm.time| - 1];
    finalDisplacement := vm.displacement[|vm.displacement| - 1];
  }
}
