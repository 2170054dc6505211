/**
 * The velocity-model builder: a `Step` whose setters derive one of velocity,
 * duration and displacement from the others, and a `VelocityModel` that
 * appends steps and extends its time, velocity, displacement and sampling
 * arrays with each step's samples.
 */
module VmBuilder {
  import opened Optional
  import opened Schedule

  /** The four parameters of a step; `None` is a parameter not set yet. */
  datatype StepValues = StepValues(velocity: Option<real>, duration: Option<real>,
                                   displacement: Option<real>, fs: Option<real>)

  /** Velocity and duration are set and displacement is their product. */
  predicate Consistent(p: StepValues) {
    && p.velocity.Some? && p.duration.Some? && p.displacement.Some?
    && p.displacement.value == p.velocity.value * p.duration.value
  }

  /** set_velocity: the new velocity, with displacement derived from the duration already set. */
  function WithVelocity(p: StepValues, v: real): (q: StepValues)
    requires p.duration.Some?
    ensures Consistent(q)
    ensures q.velocity == Some(v) && q.duration == p.duration && q.fs == p.fs
  {
    p.(velocity := Some(v), displacement := Some(v * p.duration.value))
  }

  /** set_displacement: the new displacement, with duration derived from the non-zero velocity already set. */
  function WithDisplacement(p: StepValues, x: real): (q: StepValues)
    requires p.velocity.Some? && p.velocity.value != 0.0
    ensures Consistent(q)
    ensures q.displacement == Some(x) && q.velocity == p.velocity && q.fs == p.fs
  {
    p.(displacement := Some(x), duration := Some(x / p.velocity.value))
  }

  /** hold: a step that stands still for the given duration. */
  function Held(p: StepValues, d: real): (q: StepValues)
    ensures Consistent(q)
    ensures q.velocity == Some(0.0) && q.duration == Some(d) && q.fs == p.fs
  {
    p.(velocity := Some(0.0), duration := Some(d), displacement := Some(0.0))
  }

  /** A hold does not depend on what the step held before, and holding twice is holding once. */
  lemma HoldForgetsPriorValues(p: StepValues, p': StepValues, d: real)
    requires p.fs == p'.fs
    ensures Held(p, d) == Held(p', d)
    ensures Held(Held(p, d), d) == Held(p, d)
  {
  }

  /**
   * Deriving displacement from a non-zero velocity and then duration back
   * from that displacement gives the duration the step started with.
   */
  lemma DurationRoundTrip(p: StepValues, v: real)
    requires p.duration.Some? && v != 0.0
    ensures var q := WithVelocity(p, v);
            WithDisplacement(q, q.displacement.value) == q
  {
    var d := p.duration.value;
    var q := WithVelocity(p, v);
    var r := WithDisplacement(q, q.displacement.value);
    assert (v * d) / v == d;
    assert r.duration.value == d;
    assert r.duration == q.duration;
  }

  /**
   * Deriving duration from a displacement and then displacement back from
   * that duration gives the displacement that was set.
   */
  lemma DisplacementRoundTrip(p: StepValues, x: real)
    requires p.velocity.Some? && p.velocity.value != 0.0
    ensures var q := WithDisplacement(p, x);
            WithVelocity(q, q.velocity.value) == q
  {
    var q := WithDisplacement(p, x);
    var r := WithVelocity(q, q.velocity.value);
    assert r.displacement.value == x;
    assert r.displacement == q.displacement;
  }

  class Step {
    var velocity: Option<real>
    var duration: Option<real>
    var displacement: Option<real>
    var fs: Option<real>

    /** A step with no parameter set. */
    constructor ()
      ensures Values() == StepValues(None, None, None, None)
    {
      velocity, duration, displacement, fs := None, None, None, None;
    }

    function Values(): StepValues
      reads this
    {
      StepValues(velocity, duration, displacement, fs)
    }

    /** The parameters add_step reads, once velocity, duration and Fs are set. */
    function Frozen(): Segment
      reads this
      requires velocity.Some? && duration.Some? && fs.Some?
    {
      Segment(velocity.value, duration.value, fs.value)
    }

    /** Sets the velocity and derives displacement = velocity * duration; the duration must be set. */
    method SetVelocity(v: real)
      requires duration.Some?
      modifies this
      ensures Values() == WithVelocity(old(Values()), v)
    {
      ghost var before := Values();
      velocity := Some(v);
      displacement := Some(v * duration.value);
      assert displacement.value == WithVelocity(before, v).displacement.value;
    }

    /** Sets the displacement and derives duration = displacement / velocity; the velocity must be set and non-zero. */
    method SetDisplacement(x: real)
      requires velocity.Some? && velocity.value != 0.0
      modifies this
      ensures Values() == WithDisplacement(old(Values()), x)
    {
      displacement := Some(x);
      duration := Some(x / velocity.value);
    }

    /** Makes the step a hold: zero velocity and zero displacement over the given duration. */
    method Hold(d: real)
      modifies this
      ensures Values() == Held(old(Values()), d)
    {
      velocity := Some(0.0);
      duration := Some(d);
      displacement := Some(0.0);
    }
  }

  /** A step that add_step can expand: velocity, duration and a non-zero Fs are set. */
  predicate Expandable(values: StepValues) {
    values.velocity.Some? && values.duration.Some? && values.fs.Some? && values.fs.value != 0.0
  }

  class VelocityModel {
    var time: seq<real>
    var velocity: seq<real>
    var displacement: seq<real>
    var sampling: seq<real>
    var steps: seq<Step>
    var firstStep: bool
    /** The values of the steps whose samples are in the arrays, as they were when each was added. */
    ghost var expanded: seq<Segment>

    ghost predicate Valid()
      reads this
    {
      && Aligned(Series(time, velocity, displacement, sampling))
      && (firstStep <==> |steps| <= 1)
      && Sampled(expanded)
      && Series(time, velocity, displacement, sampling) == Expand(expanded)
      && |expanded| <= |steps|
      // a step that was appended but not expanded failed on the empty time array
      && (|expanded| < |steps| ==> 1 <= |expanded| && time == [])
    }

    /** An empty model: no steps, empty arrays, and the next step is the first. */
    constructor ()
      ensures Valid()
      ensures time == [] && velocity == [] && displacement == [] && sampling == []
      ensures steps == [] && firstStep && expanded == []
    {
      time, velocity, displacement, sampling := [], [], [], [];
      steps := [];
      firstStep := true;
      expanded := [];
    }

    /**
     * Appends step to steps and, unless the arrays cannot be continued,
     * extends the four arrays with its n = ceil(duration * Fs) samples.  The
     * first step's time samples are k/Fs and its displacement samples
     * k/Fs * velocity, for k = 1..n; a later step's are shifted by the last
     * time and the last displacement.  When a later step finds the time array
     * empty the step stays appended, the arrays stay as they were and the
     * result is false (the builder raises an IndexError there).
     */
    method AddStep(step: Step) returns (extended: bool)
      requires Valid()
      requires Expandable(step.Values())
      modifies this
      ensures Valid()
      ensures steps == old(steps) + [step]
      ensures firstStep == (old(steps) == [])
      ensures extended <==> old(steps) == [] || old(time) != []
      ensures extended ==> |time| == |old(time)| + Count(step.Frozen())
      ensures !extended ==>
                && time == old(time) && velocity == old(velocity)
                && displacement == old(displacement) && sampling == old(sampling)
                && expanded == old(expanded)
      ensures extended ==>
                var s := step.Frozen();
                var ladder := Ladder(Count(s), s.fs);
                && expanded == old(expanded) + [s]
                && time == old(time) + (if old(steps) == [] then ladder else Shift(Last(old(time)), ladder))
                && velocity == old(velocity) + Constant(Count(s), s.velocity)
                && displacement == old(displacement) +
                     (if old(steps) == [] then Scale(ladder, s.velocity)
                      else Shift(Last(old(displacement)), Scale(ladder, s.velocity)))
                && sampling == old(sampling) + Constant(Count(s), s.fs)
    {
      if |steps| != 0 {
        firstStep := false;
      }
      steps := steps + [step];
      if !firstStep && |time| == 0 {
        return false;
      }
      var s := step.Frozen();
      var n := Count(s);
      var ladder := Ladder(n, s.fs);
      var timeArray := if firstStep then ladder else Shift(time[|time| - 1], ladder);
      var velArray := Constant(n, s.velocity);
      var dispArray := Scale(ladder, s.velocity);
      if !firstStep {
        dispArray := Shift(displacement[|displacement| - 1], dispArray);
      }
      var sampArray := Constant(n, s.fs);
      if firstStep {
        assert expanded == [];
        FirstSegment(s);
        assert [] + [s] == [s];
      } else {
        Continuity(expanded, s);
      }
      velocity := velocity + velArray;
      time := time + timeArray;
      displacement := displacement + dispArray;
      sampling := sampling + sampArray;
      expanded := expanded + [s];
      return true;
    }
  }
}
