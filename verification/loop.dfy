/**
  The shape of the source's driver loop, `loop { iterations += 1; step;
  if settled { break } }`, for any step and any settling test. The source
  loop has no bound; here `fuel` caps the number of steps and running out is
  a distinct outcome, never a silent answer.
 */
module Loop {

  /** Either the loop settled on `state` after `iterations` steps, or the
      fuel ran out with `state` the last one reached. */
  datatype Outcome<S> =
    | Converged(state: S, iterations: nat)
    | OutOfFuel(state: S)

  /** The state after `m` steps, with no settling test. */
  function Steps<S>(step: S -> S, s: S, m: nat): S
    decreases m
  {
    if m == 0 then s else Steps(step, step(s), m - 1)
  }

  /** The loop after `done` steps, with at most `fuel` steps left. */
  function Drive<S>(step: S -> S, settled: S -> bool, s: S, fuel: nat, done: nat): (r: Outcome<S>)
    ensures r.Converged? ==> done < r.iterations <= done + fuel && settled(r.state)
    decreases fuel
  {
    if fuel == 0 then OutOfFuel(s)
    else
      var next := step(s);
      if settled(next) then Converged(next, done + 1)
      else Drive(step, settled, next, fuel - 1, done + 1)
  }

  lemma StepsShift<S>(step: S -> S, s: S, j: nat)
    requires j >= 1
    ensures Steps(step, s, j) == Steps(step, step(s), j - 1)
  {
  }

  /** The loop stops at the first step count whose state is settled, and
      reports running out of fuel only when none of the first `fuel` states
      is settled. */
  lemma {:induction false} DriveIsFirstSettled<S>(
    step: S -> S, settled: S -> bool, s: S, fuel: nat, done: nat)
    ensures var r := Drive(step, settled, s, fuel, done);
      && (r.Converged? ==>
            var m := r.iterations - done;
            && r.state == Steps(step, s, m)
            && (forall j :: 1 <= j < m ==> !settled(Steps(step, s, j))))
      && (r.OutOfFuel? ==>
            && r.state == Steps(step, s, fuel)
            && (forall j :: 1 <= j <= fuel ==> !settled(Steps(step, s, j))))
    decreases fuel
  {
    if fuel > 0 {
      var next := step(s);
      StepsShift(step, s, 1);
      if !settled(next) {
        DriveIsFirstSettled(step, settled, next, fuel - 1, done + 1);
        var r := Drive(step, settled, next, fuel - 1, done + 1);
        forall j | 1 <= j
          ensures Steps(step, s, j) == Steps(step, next, j - 1)
        {
          StepsShift(step, s, j);
        }
        if r.Converged? {
          var m := r.iterations - done;
          forall j | 1 <= j < m
            ensures !settled(Steps(step, s, j))
          {
            if j > 1 {
              assert 1 <= j - 1 < m - 1;
            }
          }
        } else {
          forall j | 1 <= j <= fuel
            ensures !settled(Steps(step, s, j))
          {
            if j > 1 {
              assert 1 <= j - 1 <= fuel - 1;
            }
          }
        }
      }
    }
  }

  /** `DriveIsFirstSettled` for a loop that starts from scratch. */
  lemma FromScratch<S>(step: S -> S, settled: S -> bool, s: S, fuel: nat)
    ensures var r := Drive(step, settled, s, fuel, 0);
      && (r.Converged? ==>
            && r.state == Steps(step, s, r.iterations)
            && (forall j :: 1 <= j < r.iterations ==> !settled(Steps(step, s, j))))
      && (r.OutOfFuel? ==>
            && r.state == Steps(step, s, fuel)
            && (forall j :: 1 <= j <= fuel ==> !settled(Steps(step, s, j))))
  {
    DriveIsFirstSettled(step, settled, s, fuel, 0);
  }

  /** A settled answer does not depend on the fuel: any larger budget gives
      the same state and the same step count. */
  lemma {:induction false} DriveMoreFuel<S>(
    step: S -> S, settled: S -> bool, s: S, f: nat, g: nat, done: nat)
    requires f <= g
    requires Drive(step, settled, s, f, done).Converged?
    ensures Drive(step, settled, s, g, done) == Drive(step, settled, s, f, done)
    decreases f
  {
    if !settled(step(s)) {
      DriveMoreFuel(step, settled, step(s), f - 1, g - 1, done + 1);
    }
  }

  /** A state the step leaves unchanged and that is not settled is never
      left: whatever the fuel, the loop runs out of it. */
  lemma {:induction false} DriveStuck<S>(
    step: S -> S, settled: S -> bool, s: S, fuel: nat, done: nat)
    requires step(s) == s && !settled(s)
    ensures Drive(step, settled, s, fuel, done) == OutOfFuel(s)
    decreases fuel
  {
    if fuel > 0 {
      DriveStuck(step, settled, s, fuel - 1, done + 1);
    }
  }

  /** A property every step preserves holds of the final state; a property
      every step establishes holds of a settled final state. */
  lemma {:induction false} DriveKeeps<S>(
    step: S -> S, settled: S -> bool, s: S, fuel: nat, done: nat,
    inv: S -> bool, post: S -> bool)
    requires inv(s)
    requires forall t :: inv(t) ==> inv(step(t)) && post(step(t))
    ensures inv(Drive(step, settled, s, fuel, done).state)
    ensures Drive(step, settled, s, fuel, done).Converged? ==>
              post(Drive(step, settled, s, fuel, done).state)
    decreases fuel
  {
    if fuel > 0 && !settled(step(s)) {
      DriveKeeps(step, settled, step(s), fuel - 1, done + 1, inv, post);
    }
  }
}
