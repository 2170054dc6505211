# vmbuilder velocity-schedule builder, in Dafny

This project models the core of `vmbuilder.py`, the velocity-model builder for
rate-and-state friction experiments. It has two parts:

- **Step.** A step holds `velocity`, `duration`, `displacement` and the
  sampling rate `Fs`. Each parameter starts out unset (`None`). `set_velocity`
  derives displacement = velocity · duration. `set_displacement` derives
  duration = displacement / velocity. `hold` makes a zero-velocity,
  zero-displacement step of a given duration.
- **VelocityModel.** `add_step` appends a step to `steps` and extends four
  parallel sample arrays (`time`, `velocity`, `displacement`, `sampling`) with
  the step's segment. The segment is built from the offset ladder 1/Fs, 2/Fs,
  …, n/Fs, where n = ⌈duration · Fs⌉ (0 when duration · Fs ≤ 0):
  - the first step's time samples are the ladder itself;
  - a later step's time samples are the ladder shifted by the last time sample;
  - displacement samples are the ladder times the velocity, shifted by the last
    displacement after the first step;
  - velocity and Fs are constant over the segment.

Layout:

- `optional.dfy` holds `Option` for parameters that are not set yet.
- `schedule.dfy` (module `Schedule`) specifies the four arrays from scratch as
  `Expand` of the sequence of step values that were expanded. It places each
  segment at the total time (`Elapsed`) and total displacement (`Travel`) of
  the segments before it. Lemmas about it prove continuity, prefix
  preservation, strictly increasing time and exact totals.
- `vmbuilder.dfy` (module `VmBuilder`) holds the classes `Step` and
  `VelocityModel`. Their methods update fields in place as the Python does.
  The pure functions `WithVelocity`, `WithDisplacement` and `Held` specify the
  setters. `VelocityModel.Valid()` ties the arrays to `Expand`, applied to the
  ghost record `expanded` of the values each step had when it was added.
- `step_examples.dfy` replays the usage script's slide-hold-slide schedule and
  proves its final sample count, time and displacement.

Numbers are exact `real`s. The sample count is ⌈duration · Fs⌉, which is what
`np.arange(1/Fs, duration + 1/Fs, 1/Fs)` has in exact arithmetic, for any
non-zero Fs.

Three facts about the code shape the model:

- The count is a ceiling, so the last sample of a step can lie up to one
  sampling period past its duration (`LadderCoversDuration`).
- No sample is placed at time 0, although the comment at vmbuilder.py:102-103
  says time 0 is included: the first step's first sample is 1/Fs
  (`TimeIncreasing`).
- The arrays only ever grow by appending, so a step changed after `add_step`
  does not change them.

## Model

| member | source | states |
|---|---|---|
| VmBuilder.Step.constructor | vmbuilder.py:43-50 | a new step has velocity, duration, displacement and Fs all unset |
| VmBuilder.WithVelocity | vmbuilder.py:52-63 | setting velocity v keeps duration and Fs, sets velocity to v and leaves the step consistent (displacement = v · duration) |
| VmBuilder.Step.SetVelocity | vmbuilder.py:52-63 | the step's new parameters are `WithVelocity` of its old ones; the duration must already be set |
| VmBuilder.WithDisplacement | vmbuilder.py:65-76 | setting displacement x keeps velocity and Fs, sets displacement to x and leaves the step consistent (velocity · duration = x) |
| VmBuilder.Step.SetDisplacement | vmbuilder.py:65-76 | the step's new parameters are `WithDisplacement` of its old ones; velocity must be set and non-zero |
| VmBuilder.Held | vmbuilder.py:78-85 | a hold has velocity 0, the given duration, displacement 0 (through consistency) and keeps Fs |
| VmBuilder.Step.Hold | vmbuilder.py:78-85 | the step's new parameters are `Held` of its old ones |
| VmBuilder.HoldForgetsPriorValues | vmbuilder.py:78-85 | a hold yields the same step whatever the step held before, and holding again changes nothing |
| VmBuilder.DurationRoundTrip | vmbuilder.py:57-76 | deriving displacement from a non-zero velocity and then duration back from it restores the original duration |
| VmBuilder.DisplacementRoundTrip | vmbuilder.py:65-76 | deriving duration from a displacement and then displacement back from it restores the displacement that was set |
| VmBuilder.VelocityModel.constructor | vmbuilder.py:28-37 | a new model has four empty arrays, no steps and FirstStep set |
| VmBuilder.VelocityModel.AddStep | vmbuilder.py:87-126 | appends exactly the given step to steps (the same step may be added again); FirstStep afterwards is whether steps was empty before; the four arrays keep their old contents as a prefix and grow by the same n = ⌈duration · Fs⌉; new time samples are k/Fs for the first step and last time + k/Fs later; new displacement samples are k/Fs · velocity, shifted by the last displacement after the first step; new velocity and sampling samples are constant at the step's velocity and Fs; the arrays stay equal in length and equal to `Expand` of the expanded step values; a later step that finds the time array empty is appended but leaves the arrays unchanged and reports false |
| Schedule.Ceiling | vmbuilder.py:105 | the result is the least integer not below its argument |
| Schedule.SampleCount | vmbuilder.py:105-110 | the number of ladder points is the least natural number not below duration · Fs |
| Schedule.Expand | vmbuilder.py:104-126 | the four arrays built from any sequence of steps have equal lengths, and that length is the sum of the steps' sample counts |
| Schedule.LastSample | vmbuilder.py:104-115 | when there are samples, the last time sample is the sum of n/Fs over the steps and the last displacement sample is the sum of n/Fs · velocity |
| Schedule.FirstSegment | vmbuilder.py:104-105 | a first step's time samples are its bare ladder k/Fs and its displacement samples are k/Fs · velocity, with no offset |
| Schedule.Continuity | vmbuilder.py:107-126 | after a non-empty expansion, one more step adds time samples last time + k/Fs and displacement samples last displacement + k/Fs · velocity, plus constant velocity and Fs, with earlier samples unchanged |
| Schedule.HoldKeepsDisplacement | vmbuilder.py:112-115 | a zero-velocity step after a non-empty expansion keeps every new displacement sample at the last displacement reached |
| Schedule.ExpandPreservesPrefix | vmbuilder.py:123-126 | expanding more steps keeps each of the four arrays of the shorter schedule as a prefix |
| Schedule.TimeIncreasing | vmbuilder.py:104-108 | with positive sampling rates, time samples strictly increase across step boundaries and all lie in (0, total elapsed time], so none is at time 0 |
| Schedule.LadderCoversDuration | vmbuilder.py:105 | for positive duration and Fs the last offset n/Fs reaches the duration and overshoots it by less than one period |
| Schedule.WholePeriodsElapse | vmbuilder.py:105-115 | when every duration is a whole number of sampling periods, the samples end at the sum of durations and at the sum of velocity · duration |
| StepExamples.BuildSteps | examples/step_examples.py:17-65 | the script's three steps, built with the setters, are a 5 s slide at 1 and Fs 100, a slide at 10 whose duration 15 s is derived from displacement 150 with Fs 100, and a 10 s hold with Fs 10 |
| StepExamples.ScriptSteps | examples/step_examples.py:17-65 | those steps have 500, 1500 and 100 samples, last offsets 5, 15 and 10 s, and displacements 5, 150 and 0 |
| StepExamples.SlideHoldSlide | examples/step_examples.py:17-83 | the usage script's five added steps give 4100 samples ending at time 50 with displacement 310 |

## Left out

- `plot` (vmbuilder.py:128-177) is matplotlib rendering and is not modelled.
- The `print` of the ladder length (vmbuilder.py:121) and the two warning prints are console output. The conditions they warn about are preconditions here.
- The unused imports `log` and `exp` have no behaviour to model.
- Floating point: numbers are exact reals. IEEE rounding inside `np.arange` can make the sample count differ by one from ⌈duration · Fs⌉ at exact boundaries, and that is not captured.
- Python 2 integer division: the model divides reals. `set_displacement` on an integer displacement and integer velocity would floor in the source.
- VmBuilder.Step.SetVelocity: the source assigns the velocity and then fails on `velocity * None` when duration is unset. The model requires the duration to be set and so omits that half-updated state.
- VmBuilder.Step.SetDisplacement: likewise, the source assigns the displacement before failing on an unset or zero velocity. The model requires a set, non-zero velocity.
- VmBuilder.VelocityModel.AddStep: requires velocity, duration and Fs set with Fs non-zero. On the excluded inputs the source appends the step, clears FirstStep where due, and then raises TypeError or ZeroDivisionError. One case is subtler: with velocity unset and a zero-length segment, numpy may not raise at all. The IndexError on an empty time array is modelled (result false).
- Step objects are shared by reference in `steps`, as in the source. The arrays record each step's values at the time of the call, so later changes to a step do not reach them.
- Operations this source does not have are not modelled: inserting, deleting or replacing steps, rebuilding the arrays from scratch, step ordinals and start times, the calibration/output series, and command replay.
