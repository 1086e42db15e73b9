/** The dimming thread when a pass takes time. The idle time is computed once, at the decision;
    fetching and pushing a brightness come after it, and only then does the sleep begin. Seconds that
    pass in between are slept in addition. */
module DimmingPassTime {
  import opened MachineIntegers
  import opened Dimming
  import opened DimmingRace

  /** After the decision and before the sleep. */
  predicate InWindow(pc: Pc) {
    pc.Decided? || pc.Fetched?
  }

  function LateAfter(f: Fine, step: Step, late: nat): nat {
    if step == Decide then 0
    else if step == Other(Tick) && InWindow(f.pc) then late + 1
    else late
  }

  /** Seconds that passed between the latest decision and its push. */
  function Late(f0: Fine, steps: seq<Step>): nat
    requires Possible(f0, steps)
    decreases |steps|
  {
    if steps == [] then 0
    else
      var n := |steps| - 1;
      LateAfter(After(f0, steps[..n]), steps[n], Late(f0, steps[..n]))
  }

  /** What is assumed of a history: the timeouts sampled lie in tmin..tmax, the decision comes within
      `lateness` seconds of the due wake-up and its push within `window` seconds of the decision, and
      inputs come between sample and decision only if `raced`. */
  datatype Limits = Limits(tmin: nat, tmax: nat, window: nat, lateness: nat, raced: bool)

  predicate StepWithin(f: Fine, step: Step, late: nat, limits: Limits) {
    && (step == SampleTimeout ==> limits.tmin <= f.core.Current().timeout <= limits.tmax)
    && LateAfter(f, step, late) <= limits.window
    && (step == Other(Tick) ==> f.core.now + 1 < TWO_TO_THE_32)
    && (step == Other(Tick) && !InWindow(f.pc) ==> f.core.now < f.core.nextWake + limits.lateness)
    && (f.pc.Sampled? && IsInput(step) ==> limits.raced)
  }

  predicate Within(f0: Fine, steps: seq<Step>, limits: Limits)
    requires Possible(f0, steps)
    decreases |steps|
  {
    steps == [] ||
    var n := |steps| - 1;
    (Within(f0, steps[..n], limits) && StepWithin(After(f0, steps[..n]), steps[n], Late(f0, steps[..n]), limits))
  }

  // ----- What every step keeps

  /** The clock, the due wake-up, and the timeout the thread has sampled. */
  predicate ClockInv(f: Fine, limits: Limits) {
    && f.core.lastInput <= f.core.now < TWO_TO_THE_32
    && !f.core.phase.Stopped?
    && (!InWindow(f.pc) ==> f.core.now <= f.core.nextWake + limits.lateness)
    && (f.core.phase.Running? ==> f.core.nextWake <= f.core.now + limits.tmax)
    && (f.core.level.Dim? || !f.pc.Asleep? ==> !f.core.phase.Spawned?)
    && (!f.pc.Asleep? ==> limits.tmin <= f.pc.timeout <= limits.tmax)
    && (f.pc.Sampled? ==> f.pc.last <= f.core.lastInput)
  }

  /** A High level is checked again in time, but for the seconds spent in the window. */
  predicate HighInv(f: Fine, late: nat, limits: Limits) {
    f.core.level.High? ==>
      && (InWindow(f.pc) ==>
            f.core.now + NextSleep(f.pc.elapsed, f.pc.timeout) <= f.core.lastInput + limits.tmax + late)
      && (f.core.phase.Running? ==> f.core.nextWake <= f.core.lastInput + limits.tmax + limits.window)
      && (f.core.phase.Running? && !InWindow(f.pc) ==> f.core.nextWake <= f.core.lastInput + limits.tmax + late)
  }

  /** Without inputs between sample and decision a Dim level is never early. */
  predicate DimInv(f: Fine, limits: Limits) {
    !limits.raced ==>
      && (f.pc.Sampled? ==> f.pc.last == f.core.lastInput)
      && (f.core.level.Dim? ==> f.core.Idle() >= limits.tmin)
  }

  lemma ClockStep(f: Fine, step: Step, late: nat, limits: Limits)
    requires ClockInv(f, limits) && DimmingRace.Enabled(f, step) && StepWithin(f, step, late, limits) && limits.tmin > 0
    ensures ClockInv(Take(f, step), limits)
  {
  }

  lemma HighStep(f: Fine, step: Step, late: nat, limits: Limits)
    requires ClockInv(f, limits) && DimmingRace.Enabled(f, step) && StepWithin(f, step, late, limits)
    requires HighInv(f, late, limits) && late <= limits.window && limits.tmin > 0
    ensures HighInv(Take(f, step), LateAfter(f, step, late), limits)
  {
  }

  lemma DimStep(f: Fine, step: Step, late: nat, limits: Limits)
    requires ClockInv(f, limits) && DimmingRace.Enabled(f, step) && StepWithin(f, step, late, limits)
    requires DimInv(f, limits) && limits.tmin > 0
    ensures DimInv(Take(f, step), limits)
  {
  }

  lemma {:induction false} HistoryKeepsAll(f0: Fine, steps: seq<Step>, limits: Limits)
    requires Initial(f0.core) && f0.pc.Asleep? && Possible(f0, steps)
    requires Within(f0, steps, limits) && limits.tmin > 0
    ensures ClockInv(After(f0, steps), limits) && Late(f0, steps) <= limits.window
    ensures HighInv(After(f0, steps), Late(f0, steps), limits) && DimInv(After(f0, steps), limits)
    decreases |steps|
  {
    if steps == [] {
    } else {
      var n := |steps| - 1;
      var f, late := After(f0, steps[..n]), Late(f0, steps[..n]);
      HistoryKeepsAll(f0, steps[..n], limits);
      ClockStep(f, steps[n], late, limits);
      HighStep(f, steps[n], late, limits);
      DimStep(f, steps[n], late, limits);
    }
  }

  // ----- When the level is Dim

  /** Between two passes, with none due. */
  predicate Resting(f: Fine) {
    f.pc.Asleep? && f.core.phase.Running? && f.core.now < f.core.nextWake
  }

  /** A second that passed between the latest decision and its push. */
  predicate TickInWindow(f0: Fine, steps: seq<Step>, k: int)
    requires Possible(f0, steps)
  {
    && 0 <= k < |steps|
    && steps[k] == Other(Tick)
    && Possible(f0, steps[..k]) && InWindow(After(f0, steps[..k]).pc)
    && forall m :: k < m < |steps| ==> steps[m] != Decide
  }

  lemma {:induction false} LateMeansTick(f0: Fine, steps: seq<Step>) returns (k: int)
    requires Possible(f0, steps) && Late(f0, steps) > 0
    ensures TickInWindow(f0, steps, k)
    decreases |steps|
  {
    var n := |steps| - 1;
    if steps[n] == Other(Tick) && InWindow(After(f0, steps[..n]).pc) {
      k := n;
    } else {
      k := LateMeansTick(f0, steps[..n]);
      assert steps[..n][..k] == steps[..k];
      assert forall m :: k < m < n ==> steps[..n][m] == steps[m];
    }
  }

  /** In any history: whenever no pass is due, High means idle for less than the largest timeout plus
      the seconds spent in the latest window. So a level that should be Dim by then needs a second to
      have passed between the latest decision and its push. */
  lemma OverdueHighNeedsTickInWindow(f0: Fine, steps: seq<Step>, limits: Limits)
    requires Initial(f0.core) && f0.pc.Asleep? && Possible(f0, steps)
    requires Within(f0, steps, limits) && limits.tmin > 0
    requires Resting(After(f0, steps)) && After(f0, steps).core.level.High?
    ensures After(f0, steps).core.Idle() < limits.tmax + Late(f0, steps)
    ensures After(f0, steps).core.Idle() >= limits.tmax ==> exists k :: TickInWindow(f0, steps, k)
  {
    HistoryKeepsAll(f0, steps, limits);
    if Late(f0, steps) > 0 {
      var k := LateMeansTick(f0, steps);
    }
  }

  /** At every moment after the first pass, during later passes too: never Dim before `tmin` seconds
      of idleness unless inputs race, always Dim after more than `tmax`, window and lateness. */
  lemma DimmedWithinBoundsAndPassTime(f0: Fine, steps: seq<Step>, limits: Limits)
    requires Initial(f0.core) && f0.pc.Asleep? && Possible(f0, steps)
    requires Within(f0, steps, limits) && limits.tmin > 0
    ensures var s := After(f0, steps).core;
            && !s.phase.Stopped?
            && (s.level.Dim? && !limits.raced ==> s.Idle() >= limits.tmin)
            && (s.phase.Running? && s.Idle() > limits.tmax + limits.window + limits.lateness ==> s.level.Dim?)
  {
    HistoryKeepsAll(f0, steps, limits);
  }

  // ----- Runs that reach the bounds

  lemma ExtendWithin(f0: Fine, steps: seq<Step>, step: Step, limits: Limits)
    requires Possible(f0, steps) && DimmingRace.Enabled(After(f0, steps), step)
    requires Within(f0, steps, limits) && StepWithin(After(f0, steps), step, Late(f0, steps), limits)
    ensures Possible(f0, steps + [step]) && After(f0, steps + [step]) == Take(After(f0, steps), step)
    ensures Within(f0, steps + [step], limits)
    ensures Late(f0, steps + [step]) == LateAfter(After(f0, steps), step, Late(f0, steps))
  {
    Extend(f0, steps, step);
    assert (steps + [step])[..|steps + [step]| - 1] == steps;
  }

  function Later(f: Fine, n: nat): Fine {
    f.(core := f.core.(now := f.core.now + n))
  }

  lemma {:induction false} TicksWithin(f0: Fine, steps: seq<Step>, n: nat, limits: Limits) returns (more: seq<Step>)
    requires Possible(f0, steps) && Within(f0, steps, limits) && Late(f0, steps) <= limits.window
    requires var f := After(f0, steps);
             && f.core.now + n < TWO_TO_THE_32
             && (InWindow(f.pc) ==> Late(f0, steps) + n <= limits.window)
             && (!InWindow(f.pc) ==> f.core.now + n <= f.core.nextWake + limits.lateness)
    ensures Possible(f0, more) && Within(f0, more, limits)
    ensures After(f0, more) == Later(After(f0, steps), n)
    ensures Late(f0, more) == Late(f0, steps) + if InWindow(After(f0, steps).pc) then n else 0
    decreases n
  {
    if n == 0 {
      more := steps;
    } else {
      var one := TickWithin(f0, steps, limits);
      more := TicksWithin(f0, one, n - 1, limits);
      LaterTwice(After(f0, steps), n);
    }
  }

  lemma LaterTwice(f: Fine, n: nat)
    requires n > 0
    ensures Later(Later(f, 1), n - 1) == Later(f, n)
  {
  }

  lemma TickWithin(f0: Fine, steps: seq<Step>, limits: Limits) returns (more: seq<Step>)
    requires Possible(f0, steps) && Within(f0, steps, limits) && Late(f0, steps) <= limits.window
    requires var f := After(f0, steps);
             && f.core.now + 1 < TWO_TO_THE_32
             && (InWindow(f.pc) ==> Late(f0, steps) + 1 <= limits.window)
             && (!InWindow(f.pc) ==> f.core.now + 1 <= f.core.nextWake + limits.lateness)
    ensures Possible(f0, more) && Within(f0, more, limits)
    ensures After(f0, more) == Later(After(f0, steps), 1)
    ensures Late(f0, more) == Late(f0, steps) + if InWindow(After(f0, steps).pc) then 1 else 0
  {
    ExtendWithin(f0, steps, Other(Tick), limits);
    more := steps + [Other(Tick)];
  }

  lemma WireAndSample(f0: Fine, limits: Limits) returns (steps: seq<Step>)
    requires Initial(f0.core) && f0.pc.Asleep? && 0 < limits.tmin <= f0.core.Current().timeout <= limits.tmax
    ensures Possible(f0, steps) && Within(f0, steps, limits) && Late(f0, steps) == 0
    ensures After(f0, steps) == Fine(f0.core.(phase := Wired), Sampled(f0.core.Current().timeout, f0.core.lastInput))
  {
    steps := [] + [Other(Wire)];
    ExtendWithin(f0, [], Other(Wire), limits);
    assert After(f0, steps) == Fine(f0.core.(phase := Wired), Asleep);
    steps := Sample(f0, steps, limits);
  }

  lemma Sample(f0: Fine, steps: seq<Step>, limits: Limits) returns (more: seq<Step>)
    requires Possible(f0, steps) && Within(f0, steps, limits) && Late(f0, steps) <= limits.window
    requires DimmingRace.Enabled(After(f0, steps), SampleTimeout)
    requires 0 < limits.tmin <= After(f0, steps).core.Current().timeout <= limits.tmax
    ensures Possible(f0, more) && Within(f0, more, limits) && Late(f0, more) == Late(f0, steps)
    ensures var s := After(f0, steps).core;
            After(f0, more) == Fine(s, Sampled(s.Current().timeout, s.lastInput))
  {
    ExtendWithin(f0, steps, SampleTimeout, limits);
    ExtendWithin(f0, steps + [SampleTimeout], SampleInput, limits);
    more := steps + [SampleTimeout] + [SampleInput];
  }

  lemma FetchAndPush(f0: Fine, steps: seq<Step>, limits: Limits) returns (more: seq<Step>)
    requires Possible(f0, steps) && Within(f0, steps, limits) && Late(f0, steps) <= limits.window
    requires After(f0, steps).pc.Decided?
    ensures Possible(f0, more) && Within(f0, more, limits) && Late(f0, more) == Late(f0, steps)
    ensures var f := After(f0, steps);
            After(f0, more) == Fine(f.core.(device := f.core.Selected(), phase := Running,
                                            nextWake := f.core.now + NextSleep(f.pc.elapsed, f.pc.timeout)), Asleep)
  {
    ExtendWithin(f0, steps, Fetch, limits);
    ExtendWithin(f0, steps + [Fetch], Push, limits);
    more := steps + [Fetch] + [Push];
  }

  function StartAt(now: uint32, timeout: uint32): Fine {
    var c := Config(30, 100, timeout);
    Fine(State(now, 0, High, now, 100, Battery, c, c, Spawned), Asleep)
  }

  /** Input at time 0 and nothing ever after; the first pass spends `window` seconds in the window. */
  lemma SlowFirstPass(limits: Limits) returns (f0: Fine, steps: seq<Step>)
    requires 0 < limits.tmin <= limits.tmax < TWO_TO_THE_32 && limits.window + limits.tmax < TWO_TO_THE_32
    ensures Initial(f0.core) && f0.pc.Asleep? && Possible(f0, steps) && Within(f0, steps, limits)
    ensures Late(f0, steps) <= limits.window
    ensures var f := After(f0, steps);
            && f.pc.Asleep? && f.core.phase.Running? && f.core.level.High? && f.core.lastInput == 0
            && f.core.now == limits.window && f.core.nextWake == limits.window + limits.tmax
  {
    f0 := StartAt(0, limits.tmax);
    var sampled := WireAndSample(f0, limits);
    ExtendWithin(f0, sampled, Decide, limits);
    assert After(f0, sampled + [Decide]) == Fine(f0.core.(phase := Wired), Decided(limits.tmax, 0));
    var waited := TicksWithin(f0, sampled + [Decide], limits.window, limits);
    steps := FetchAndPush(f0, waited, limits);
  }

  /** The upper bound is reached: High after exactly `tmax + window + lateness` idle seconds. */
  lemma {:induction false} UpperBoundWithPassTimeIsReached(limits: Limits) returns (f0: Fine, steps: seq<Step>)
    requires 0 < limits.tmin <= limits.tmax && limits.tmax + limits.window + limits.lateness < TWO_TO_THE_32
    ensures Initial(f0.core) && f0.pc.Asleep? && Possible(f0, steps) && Within(f0, steps, limits)
    ensures var s := After(f0, steps).core;
            s.phase.Running? && s.level.High? && s.Idle() == limits.tmax + limits.window + limits.lateness
  {
    f0, steps := SlowFirstPass(limits);
    steps := TicksWithin(f0, steps, limits.tmax + limits.lateness, limits);
  }

  /** With no pass due, High after `tmax + window - 1` idle seconds: overdue as soon as the window can
      take a second. */
  lemma SlowPassDelaysDim(limits: Limits) returns (f0: Fine, steps: seq<Step>)
    requires 0 < limits.tmin <= limits.tmax && limits.tmax + limits.window < TWO_TO_THE_32
    ensures Initial(f0.core) && f0.pc.Asleep? && Possible(f0, steps) && Within(f0, steps, limits)
    ensures Resting(After(f0, steps)) && After(f0, steps).core.level.High?
    ensures After(f0, steps).core.Idle() == limits.tmax + limits.window - 1
  {
    f0, steps := SlowFirstPass(limits);
    steps := TicksWithin(f0, steps, limits.tmax - 1, limits);
  }

  /** An input after the sample of a pass that is to dim. */
  lemma RaceThenDecide(f0: Fine, steps: seq<Step>, limits: Limits) returns (more: seq<Step>)
    requires Possible(f0, steps) && Within(f0, steps, limits) && Late(f0, steps) <= limits.window && limits.raced
    requires WillDim(After(f0, steps)) && !After(f0, steps).core.phase.Spawned?
    ensures Possible(f0, more) && Within(f0, more, limits) && Late(f0, more) == 0
    ensures var f, r := After(f0, steps), After(f0, more);
            && r.core.level.Dim? && r.core.Idle() == 0 && r.core.now == f.core.now
            && r.pc == Decided(f.pc.timeout, ElapsedSince(f.core.now, f.pc.last))
  {
    ExtendWithin(f0, steps, Other(Input(None)), limits);
    var raced := steps + [Other(Input(None))];
    assert WillDim(After(f0, raced));
    ExtendWithin(f0, raced, Decide, limits);
    more := raced + [Decide];
  }

  /** An input between sample and decision: Dim at once, with no pass due. */
  lemma RacedPassDimsEarly(limits: Limits) returns (f0: Fine, steps: seq<Step>)
    requires 0 < limits.tmin <= limits.tmax && limits.tmin < TWO_TO_THE_32 && limits.raced
    ensures Initial(f0.core) && f0.pc.Asleep? && Possible(f0, steps) && Within(f0, steps, limits)
    ensures Resting(After(f0, steps)) && After(f0, steps).core.level.Dim? && After(f0, steps).core.Idle() == 0
  {
    f0 := StartAt(limits.tmin, limits.tmin);
    var sampled := WireAndSample(f0, limits);
    var decided := RaceThenDecide(f0, sampled, limits);
    steps := FetchAndPush(f0, decided, limits);
  }

  // ----- When the simple rule holds

  /** A history from the start, at rest at its end. */
  predicate RestsWithin(f0: Fine, steps: seq<Step>, limits: Limits) {
    Initial(f0.core) && f0.pc.Asleep? && Possible(f0, steps) && Within(f0, steps, limits) && Resting(After(f0, steps))
  }

  /** In all histories: Dim at rest once idle for the largest timeout. */
  ghost predicate AlwaysOnTime(limits: Limits) {
    forall f0, steps :: RestsWithin(f0, steps, limits) && After(f0, steps).core.Idle() >= limits.tmax ==>
      After(f0, steps).core.level.Dim?
  }

  /** In all histories: Dim at rest only if idle for the least timeout. */
  ghost predicate NeverEarly(limits: Limits) {
    forall f0, steps :: RestsWithin(f0, steps, limits) && After(f0, steps).core.level.Dim? ==>
      After(f0, steps).core.Idle() >= limits.tmin
  }

  /** With one timeout T, in all histories: at rest, Dim exactly when idle for T. */
  ghost predicate AlwaysExact(limits: Limits) {
    forall f0, steps :: RestsWithin(f0, steps, limits) ==>
      (After(f0, steps).core.level.Dim? <==> After(f0, steps).core.Idle() >= limits.tmax)
  }

  /** The level is always on time exactly if no second passes between decision and push. */
  lemma AlwaysOnTimeIff(limits: Limits)
    requires 0 < limits.tmin <= limits.tmax && limits.tmax + limits.window < TWO_TO_THE_32
    ensures AlwaysOnTime(limits) <==> limits.window == 0
  {
    if limits.window == 0 {
      forall f0, steps | RestsWithin(f0, steps, limits) && After(f0, steps).core.Idle() >= limits.tmax
        ensures After(f0, steps).core.level.Dim?
      {
        HistoryKeepsAll(f0, steps, limits);
      }
    } else {
      var f0, steps := SlowPassDelaysDim(limits);
      assert RestsWithin(f0, steps, limits) && !After(f0, steps).core.level.Dim?;
    }
  }

  /** The level is never early exactly if no input comes between sample and decision. */
  lemma NeverEarlyIff(limits: Limits)
    requires 0 < limits.tmin <= limits.tmax && limits.tmin < TWO_TO_THE_32
    ensures NeverEarly(limits) <==> !limits.raced
  {
    if !limits.raced {
      forall f0, steps | RestsWithin(f0, steps, limits) && After(f0, steps).core.level.Dim?
        ensures After(f0, steps).core.Idle() >= limits.tmin
      {
        HistoryKeepsAll(f0, steps, limits);
      }
    } else {
      var f0, steps := RacedPassDimsEarly(limits);
      assert RestsWithin(f0, steps, limits) && After(f0, steps).core.level.Dim?;
    }
  }

  /** The simple rule - dim exactly when the last input is at least T seconds ago - holds in all
      histories exactly if passes take no time after their decision and no input races a decision. */
  lemma AlwaysExactIff(limits: Limits)
    requires 0 < limits.tmin == limits.tmax && limits.tmax + limits.window < TWO_TO_THE_32
    ensures AlwaysExact(limits) <==> limits.window == 0 && !limits.raced
  {
    AlwaysOnTimeIff(limits);
    NeverEarlyIff(limits);
    assert AlwaysExact(limits) <==> AlwaysOnTime(limits) && NeverEarly(limits);
  }
}
