/** What the dimming machine guarantees over all runs. */
module DimmingTiming {
  import opened MachineIntegers
  import opened Screen
  import opened KeyHandler
  import opened Dimming

  // ----- Level against idle time

  /** The link between wake-up time, last input and level that every step keeps. */
  predicate Inv(s: State, env: Surroundings) {
    && s.lastInput <= s.now < TWO_TO_THE_32
    && !s.phase.Stopped?
    && s.now <= s.nextWake + env.lateness
    && (s.level.Dim? ==> s.phase.Running? && s.Idle() >= env.tmin)
    && (s.phase.Running? ==> s.nextWake <= s.now + env.tmax)
    && (s.phase.Running? && s.level.High? ==> s.nextWake <= s.lastInput + env.tmax)
  }

  lemma StepKeepsInv(s: State, e: Event, env: Surroundings)
    requires Inv(s, env) && Enabled(s, e, env) && env.tmin > 0
    ensures Inv(Step(s, e), env)
  {
  }

  lemma {:induction false} RunKeepsInv(s: State, events: seq<Event>, env: Surroundings)
    requires Inv(s, env) && Legal(s, events, env) && env.tmin > 0
    ensures Inv(Run(s, events), env)
    decreases |events|
  {
    if events == [] {
    } else {
      StepKeepsInv(s, events[0], env);
      RunKeepsInv(Step(s, events[0]), events[1..], env);
    }
  }

  /** With every sampled timeout in tmin..tmax, whatever is rewritten or switched in between: once
      the first pass is over the level is never Dim before `tmin` seconds of idleness, and always
      Dim after more than `tmax` seconds plus the wake-up lateness. */
  lemma DimmedWithinBounds(s0: State, events: seq<Event>, env: Surroundings)
    requires Initial(s0) && Legal(s0, events, env) && env.tmin > 0
    ensures var s := Run(s0, events);
            && !s.phase.Stopped?
            && (s.level.Dim? ==> s.Idle() >= env.tmin)
            && (s.phase.Running? && s.Idle() > env.tmax + env.lateness ==> s.level.Dim?)
  {
    RunKeepsInv(s0, events, env);
  }

  /** With one fixed timeout T the adaptive sleeps amount to the simple rule: whenever no pass is
      overdue, the level is Dim exactly when the last input is at least T seconds ago. */
  lemma DimExactlyWhenIdle(s0: State, events: seq<Event>, env: Surroundings)
    requires Initial(s0) && Legal(s0, events, env) && env.tmin == env.tmax > 0
    ensures var s := Run(s0, events);
            s.phase.Running? && s.now < s.nextWake ==> (s.level.Dim? <==> s.Idle() >= env.tmax)
  {
    RunKeepsInv(s0, events, env);
  }

  /** Any run, played on the object, and what holds of its fields at the end of it. */
  method Drive(d: Dimmer, events: seq<Event>, env: Surroundings)
    requires d.Valid() && Initial(d.View()) && Legal(d.View(), events, env) && env.tmin > 0
    modifies d, d.battery, d.power, d.panel
    ensures d.Valid() && d.View() == Run(old(d.View()), events)
    ensures d.active
    ensures d.level.Dim? ==> d.now - d.lastInput >= env.tmin
    ensures d.passed && d.now - d.lastInput > env.tmax + env.lateness ==> d.level.Dim?
    ensures env.tmin == env.tmax && d.passed && d.now < d.nextWake ==>
              (d.level.Dim? <==> d.now - d.lastInput >= env.tmax)
  {
    ghost var start := d.View();
    var i := 0;
    assert events[0..] == events;
    while i < |events|
      invariant 0 <= i <= |events| && d.Valid()
      invariant Legal(d.View(), events[i..], env) && Run(d.View(), events[i..]) == Run(start, events)
    {
      NextEvent(d.View(), events, i, env);
      Take(d, events[i], env);
      i := i + 1;
    }
    DimmedWithinBounds(start, events, env);
    if env.tmin == env.tmax {
      DimExactlyWhenIdle(start, events, env);
    }
  }

  lemma NextEvent(s: State, events: seq<Event>, i: nat, env: Surroundings)
    requires i < |events| && Legal(s, events[i..], env)
    ensures Enabled(s, events[i], env) && Legal(Step(s, events[i]), events[i + 1..], env)
    ensures Run(s, events[i..]) == Run(Step(s, events[i]), events[i + 1..])
  {
    assert events[i..][0] == events[i] && events[i..][1..] == events[i + 1..];
  }

  /** One event. */
  method Take(d: Dimmer, e: Event, ghost env: Surroundings)
    requires d.Valid() && Enabled(d.View(), e, env)
    modifies d, d.battery, d.power, d.panel
    ensures d.Valid() && d.View() == Step(old(d.View()), e)
  {
    match e
    case Tick => d.Tick();
    case Wire => d.Wire();
    case Pass => d.ThreadPass();
    case Input(key) => d.OnInput(key);
    case SetLow(m, value) => d.SysctlLow(m, value);
    case SetHigh(m, value) => d.SysctlHigh(m, value);
    case SetTimeout(m, value) => d.SysctlTimeout(m, value);
    case SwitchMode(to) => d.SwitchMode(to);
  }

  // ----- The bounds cannot be improved

  lemma RunCons(s: State, e: Event, rest: seq<Event>, env: Surroundings)
    requires Enabled(s, e, env) && Legal(Step(s, e), rest, env)
    ensures Legal(s, [e] + rest, env) && Run(s, [e] + rest) == Run(Step(s, e), rest)
  {
    assert ([e] + rest)[1..] == rest;
  }

  lemma RunOne(s: State, e: Event, env: Surroundings)
    requires Enabled(s, e, env)
    ensures Legal(s, [e], env) && Run(s, [e]) == Step(s, e)
  {
    RunCons(s, e, [], env);
    assert [e] + [] == [e];
  }

  function Ticks(n: nat): seq<Event> {
    if n == 0 then [] else [Tick] + Ticks(n - 1)
  }

  lemma {:induction false} TicksRun(s: State, n: nat, rest: seq<Event>, env: Surroundings)
    requires !s.phase.Stopped? && s.now + n <= s.nextWake + env.lateness && s.now + n < TWO_TO_THE_32
    requires Legal(s.(now := s.now + n), rest, env)
    ensures Legal(s, Ticks(n) + rest, env)
    ensures Run(s, Ticks(n) + rest) == Run(s.(now := s.now + n), rest)
    decreases n
  {
    if n == 0 {
      assert Ticks(0) + rest == rest && s.(now := s.now + 0) == s;
    } else {
      var next := Step(s, Tick);
      assert next.(now := next.now + (n - 1)) == s.(now := s.now + n);
      TicksRun(next, n - 1, rest, env);
      RunCons(s, Tick, Ticks(n - 1) + rest, env);
      assert Ticks(n) + rest == [Tick] + (Ticks(n - 1) + rest);
    }
  }

  /** The upper bound is reached: a late pass after `tmax` seconds leaves the level High for
      exactly `tmax + lateness` idle seconds. */
  lemma UpperBoundIsReached(s0: State, env: Surroundings)
    requires Initial(s0) && s0.lastInput == s0.now && 0 < env.tmin <= env.tmax
    requires s0.Current().timeout == env.tmax && s0.now + env.tmax + env.lateness < TWO_TO_THE_32
    ensures exists events :: Legal(s0, events, env)
              && var s := Run(s0, events);
                 s.phase.Running? && s.level.High? && s.Idle() == env.tmax + env.lateness
  {
    var s1 := Step(s0, Wire);
    var s2 := Step(s1, Pass);
    var rest := Ticks(env.tmax + env.lateness) + [];
    TicksRun(s2, env.tmax + env.lateness, [], env);
    RunCons(s1, Pass, rest, env);
    RunCons(s0, Wire, [Pass] + rest, env);
    var s := Run(s0, [Wire] + ([Pass] + rest));
    assert s.phase.Running? && s.level.High? && s.Idle() == env.tmax + env.lateness;
  }

  lemma RunThree(s: State, e0: Event, e1: Event, e2: Event, env: Surroundings)
    requires Enabled(s, e0, env) && Enabled(Step(s, e0), e1, env) && Enabled(Step(Step(s, e0), e1), e2, env)
    ensures Legal(s, [e0, e1, e2], env) && Run(s, [e0, e1, e2]) == Step(Step(Step(s, e0), e1), e2)
  {
    RunOne(Step(Step(s, e0), e1), e2, env);
    RunCons(Step(s, e0), e1, [e2], env);
    RunCons(s, e0, [e1] + [e2], env);
    assert [e0] + ([e1] + [e2]) == [e0, e1, e2];
  }

  // ----- The rule measured against the timeout configured now

  predicate TimeoutsWithin(s: State, env: Surroundings) {
    env.tmin <= s.battery.timeout <= env.tmax && env.tmin <= s.power.timeout <= env.tmax
  }

  predicate WritesWithin(events: seq<Event>, env: Surroundings) {
    forall e <- events :: e.SetTimeout? ==> env.tmin <= e.value <= env.tmax
  }

  /** Whenever no pass is due, Dim means idle for at least the timeout configured at that moment. */
  predicate FollowsConfigured(s: State) {
    s.phase.Running? && s.now < s.nextWake ==> (s.level.Dim? <==> s.Idle() >= s.Current().timeout)
  }

  lemma {:induction false} TimeoutsStayWithin(s: State, events: seq<Event>, env: Surroundings)
    requires TimeoutsWithin(s, env) && WritesWithin(events, env)
    ensures TimeoutsWithin(Run(s, events), env)
    decreases |events|
  {
    if events == [] {
    } else {
      assert events[0] in events;
      TimeoutsStayWithin(Step(s, events[0]), events[1..], env);
    }
  }

  /** Raising the timeout does not undo a dim, however long until the next input. */
  lemma RaisedTimeoutKeepsDim(s0: State, raised: uint32, env: Surroundings)
    requires Initial(s0) && s0.Idle() >= s0.Current().timeout && raised > s0.Idle()
    requires 0 < env.tmin <= s0.Current().timeout <= raised <= env.tmax
    ensures exists events :: Legal(s0, events, env) && WritesWithin(events, env)
              && var s := Run(s0, events);
                 s.phase.Running? && s.now < s.nextWake && s.level.Dim? && s.Idle() < s.Current().timeout
  {
    var e := SetTimeout(s0.mode, raised);
    RunThree(s0, Wire, Pass, e, env);
    var s := Run(s0, [Wire, Pass, e]);
    assert s.phase.Running? && s.now < s.nextWake && s.level.Dim? && s.Idle() < s.Current().timeout;
  }

  /** Lowering it does not bring the next pass forward. */
  lemma LoweredTimeoutStaysHigh(s0: State, lowered: uint32, env: Surroundings)
    requires Initial(s0) && lowered <= s0.Idle() < s0.Current().timeout
    requires 0 < env.tmin <= lowered && s0.Current().timeout <= env.tmax
    ensures exists events :: Legal(s0, events, env) && WritesWithin(events, env)
              && var s := Run(s0, events);
                 s.phase.Running? && s.now < s.nextWake && s.level.High? && s.Idle() >= s.Current().timeout
  {
    var e := SetTimeout(s0.mode, lowered);
    RunThree(s0, Wire, Pass, e, env);
    var s := Run(s0, [Wire, Pass, e]);
    assert s.phase.Running? && s.now < s.nextWake && s.level.High? && s.Idle() >= s.Current().timeout;
  }

  /** Every run, from every start, with every configured and written timeout in tmin..tmax. */
  ghost predicate AlwaysFollowsConfigured(env: Surroundings) {
    forall s0, events :: Initial(s0) && TimeoutsWithin(s0, env) && WritesWithin(events, env) && Legal(s0, events, env) ==>
      FollowsConfigured(Run(s0, events))
  }

  /** The level follows the configured timeout in all runs exactly if there is only one timeout to
      configure. */
  lemma FollowsConfiguredIff(env: Surroundings)
    requires 0 < env.tmin <= env.tmax < TWO_TO_THE_32
    ensures AlwaysFollowsConfigured(env) <==> env.tmin == env.tmax
  {
    if env.tmin == env.tmax {
      forall s0, events | Initial(s0) && TimeoutsWithin(s0, env) && WritesWithin(events, env) && Legal(s0, events, env)
        ensures FollowsConfigured(Run(s0, events))
      {
        DimExactlyWhenIdle(s0, events, env);
        TimeoutsStayWithin(s0, events, env);
      }
    } else {
      var c := Config(30, 100, env.tmin);
      var s0 := State(env.tmin, 0, High, env.tmin, 100, Battery, c, c, Spawned);
      RaisedTimeoutKeepsDim(s0, env.tmax, env);
      var events :| Legal(s0, events, env) && WritesWithin(events, env)
        && var s := Run(s0, events);
           s.phase.Running? && s.now < s.nextWake && s.level.Dim? && s.Idle() < s.Current().timeout;
      assert !FollowsConfigured(Run(s0, events));
    }
  }

  // ----- How often the thread wakes up

  function At(s0: State, events: seq<Event>, i: nat): State
    requires i <= |events|
  {
    Run(s0, events[..i])
  }

  lemma {:induction false} RunAppend(s: State, a: seq<Event>, b: seq<Event>, env: Surroundings)
    ensures Run(s, a + b) == Run(Run(s, a), b)
    ensures Legal(s, a + b, env) ==> Legal(s, a, env) && Legal(Run(s, a), b, env)
    decreases |a|
  {
    if a == [] {
      assert a + b == b;
    } else {
      assert (a + b)[1..] == a[1..] + b;
      RunAppend(Step(s, a[0]), a[1..], b, env);
    }
  }

  /** The state before event i, the event itself, and the state after it. */
  lemma RunAt(s0: State, events: seq<Event>, i: nat, env: Surroundings)
    requires i < |events| && Legal(s0, events, env)
    ensures Legal(s0, events[..i], env)
    ensures Enabled(At(s0, events, i), events[i], env)
    ensures At(s0, events, i + 1) == Step(At(s0, events, i), events[i])
    ensures Legal(At(s0, events, i + 1), events[i + 1..], env)
    ensures Run(s0, events) == Run(At(s0, events, i + 1), events[i + 1..])
  {
    assert events == events[..i] + events[i..] && events[i..][1..] == events[i + 1..];
    RunAppend(s0, events[..i], events[i..], env);
    assert events[..i + 1] == events[..i] + [events[i]];
    RunAppend(s0, events[..i], [events[i]], env);
    assert [events[i]][1..] == [];
    assert events == events[..i + 1] + events[i + 1..];
    RunAppend(s0, events[..i + 1], events[i + 1..], env);
  }

  /** A pass that finds the last input more recent than the timeout. */
  predicate SeesActivity(s: State) {
    s.Elapsed() < s.Current().timeout
  }

  lemma {:induction false} NextWakeOnlyGrows(s: State, events: seq<Event>, env: Surroundings)
    requires Legal(s, events, env)
    ensures Run(s, events).nextWake >= s.nextWake
    decreases |events|
  {
    if events == [] {
    } else {
      NextWakeOnlyGrows(Step(s, events[0]), events[1..], env);
    }
  }

  /** Every sleep the thread asks for is between 1 and `tmax` seconds. */
  lemma SleepsAreBounded(s0: State, events: seq<Event>, env: Surroundings, i: nat)
    requires Initial(s0) && Legal(s0, events, env) && env.tmin > 0
    requires i < |events| && events[i] == Pass
    ensures 1 <= At(s0, events, i + 1).nextWake - At(s0, events, i).now <= env.tmax
  {
    RunAt(s0, events, i, env);
    RunKeepsInv(s0, events[..i], env);
  }

  /** Two passes that see activity have seen two different last inputs, the later pass the later
      one, whatever happens before and between them. */
  lemma ActivePassesSeeNewInput(s0: State, before: seq<Event>, between: seq<Event>, env: Surroundings)
    requires Initial(s0) && env.tmin == env.tmax > 0
    requires Legal(s0, before + ([Pass] + (between + [Pass])), env)
    ensures var s1 := Run(s0, before);
            var s2 := Run(Step(s1, Pass), between);
            SeesActivity(s1) && SeesActivity(s2) ==> s1.lastInput < s2.lastInput
  {
    var s1 := Run(s0, before);
    var rest := between + [Pass];
    RunAppend(s0, before, [Pass] + rest, env);
    RunKeepsInv(s0, before, env);
    assert ([Pass] + rest)[1..] == rest;
    StepKeepsInv(s1, Pass, env);
    RunAppend(Step(s1, Pass), between, [Pass], env);
    RunKeepsInv(Step(s1, Pass), between, env);
    NextWakeOnlyGrows(Step(s1, Pass), between, env);
    LaterWakeSeesLaterInput(s1, Run(Step(s1, Pass), between), env);
  }

  lemma LaterWakeSeesLaterInput(s1: State, s2: State, env: Surroundings)
    requires env.tmin == env.tmax > 0 && Inv(s1, env) && Inv(s2, env)
    requires Enabled(s1, Pass, env) && Enabled(s2, Pass, env) && s2.nextWake >= Step(s1, Pass).nextWake
    ensures SeesActivity(s1) && SeesActivity(s2) ==> s1.lastInput < s2.lastInput
  {
  }

  function Inputs(events: seq<Event>): nat {
    if events == [] then 0 else (if events[0].Input? then 1 else 0) + Inputs(events[1..])
  }

  function Passes(events: seq<Event>): nat {
    if events == [] then 0 else (if events[0].Pass? then 1 else 0) + Passes(events[1..])
  }

  /** `dimming` sleeps of `t` seconds each. */
  function Cost(t: nat, dimming: nat): nat {
    if dimming == 0 then 0 else t + Cost(t, dimming - 1)
  }

  lemma {:induction false} CostIsProduct(t: nat, dimming: nat)
    ensures Cost(t, dimming) == t * dimming
  {
    if dimming == 0 {
    } else {
      CostIsProduct(t, dimming - 1);
      assert t * (dimming - 1) == t * dimming - t;
    }
  }

  /** The bookkeeping behind the bound: dimming passes are paid for by the time up to the next
      wake-up, the others by one input each. */
  predicate Paid(s: State, start: nat, dimming: nat, active: nat, inputs: nat, t: nat) {
    && (dimming == active == 0 || s.phase.Running?)
    && Cost(t, dimming) <= s.nextWake - start
    && active <= inputs + 1
    && (s.nextWake < s.lastInput + t ==> active <= inputs)
  }

  lemma {:induction false} RunStaysPaid(
      s: State, events: seq<Event>, env: Surroundings,
      start: nat, dimming: nat, active: nat, inputs: nat) returns (dimming': nat, active': nat)
    requires Inv(s, env) && Legal(s, events, env) && env.tmin == env.tmax > 0
    requires Paid(s, start, dimming, active, inputs, env.tmax)
    ensures Paid(Run(s, events), start, dimming', active', inputs + Inputs(events), env.tmax)
    ensures dimming' + active' == dimming + active + Passes(events)
    decreases |events|
  {
    if events == [] {
      return dimming, active;
    }
    StepKeepsInv(s, events[0], env);
    var d, a := StepStaysPaid(s, events[0], env, start, dimming, active, inputs);
    dimming', active' := RunStaysPaid(Step(s, events[0]), events[1..], env, start, d, a,
                                      inputs + (if events[0].Input? then 1 else 0));
  }

  lemma StepStaysPaid(
      s: State, e: Event, env: Surroundings,
      start: nat, dimming: nat, active: nat, inputs: nat) returns (dimming': nat, active': nat)
    requires Inv(s, env) && Enabled(s, e, env) && env.tmin == env.tmax > 0
    requires Paid(s, start, dimming, active, inputs, env.tmax)
    ensures Paid(Step(s, e), start, dimming', active', inputs + (if e.Input? then 1 else 0), env.tmax)
    ensures dimming' + active' == dimming + active + (if e.Pass? then 1 else 0)
  {
    dimming', active' := dimming, active;
    if e.Pass? && SeesActivity(s) {
      active' := active + 1;
    } else if e.Pass? {
      dimming' := dimming + 1;
    }
  }

  /** With a fixed timeout T, n passes take either inputs or time, however late the wake-ups:
      n <= 2 + inputs + (now - start) / T. */
  lemma PassesAreAmortised(s0: State, events: seq<Event>, env: Surroundings)
    requires Initial(s0) && Legal(s0, events, env) && env.tmin == env.tmax > 0
    ensures Run(s0, events).now >= s0.now
    ensures Passes(events) <= 2 + Inputs(events) + (Run(s0, events).now - s0.now) / env.tmax
  {
    var dimming, active := RunStaysPaid(s0, events, env, s0.now, 0, 0, 0);
    RunKeepsInv(s0, events, env);
    NowOnlyGrows(s0, events);
    PaidBound(Run(s0, events), s0.now, dimming, active, Inputs(events), env);
  }

  lemma PaidBound(s: State, start: nat, dimming: nat, active: nat, inputs: nat, env: Surroundings)
    requires Inv(s, env) && env.tmax > 0 && s.now >= start
    requires Paid(s, start, dimming, active, inputs, env.tmax)
    ensures dimming + active <= 2 + inputs + (s.now - start) / env.tmax
  {
    var t, time := env.tmax, s.now - start;
    CostIsProduct(t, dimming);
    DimmingPassesTakeTime(t, dimming, time);
  }

  lemma {:induction false} NowOnlyGrows(s: State, events: seq<Event>)
    ensures Run(s, events).now >= s.now
    decreases |events|
  {
    if events == [] {
    } else {
      NowOnlyGrows(Step(s, events[0]), events[1..]);
    }
  }

  lemma DimmingPassesTakeTime(t: int, dimming: int, time: int)
    requires t > 0 && t * dimming <= time + t
    ensures dimming <= 1 + time / t
  {
    QuotientAtLeast(t, dimming - 1, time) by {
      assert t * (dimming - 1) == t * dimming - t;
    }
  }

  lemma QuotientAtLeast(t: int, k: int, time: int)
    requires t > 0 && t * k <= time
    ensures k <= time / t
  {
    var q := time / t;
    assert time < t * q + t;
    CancelFactor(t, k, q + 1) by {
      assert t * (q + 1) == t * q + t;
    }
  }

  lemma CancelFactor(t: int, a: int, b: int)
    requires t > 0 && t * a < t * b
    ensures a < b
  {
  }

  // ----- The panel

  /** Everything but brightness settings, mode changes and keys. */
  predicate Quiet(events: seq<Event>) {
    forall e <- events :: e.Tick? || e.Wire? || e.Pass? || e.SetTimeout? || e == Input(None)
  }

  /** A pass leaves on the panel what level, mode and settings select. */
  lemma PassShowsSelected(s: State, env: Surroundings)
    requires Enabled(s, Pass, env) && env.tmin > 0
    ensures Step(s, Pass).device == Step(s, Pass).Selected()
  {
  }

  lemma {:induction false} QuietKeepsSelected(s: State, events: seq<Event>, env: Surroundings)
    requires Legal(s, events, env) && env.tmin > 0 && Quiet(events)
    requires s.device == s.Selected()
    ensures Run(s, events).device == Run(s, events).Selected()
    decreases |events|
  {
    if events == [] {
    } else {
      assert events[0] in events;
      QuietKeepsSelected(Step(s, events[0]), events[1..], env);
    }
  }

  /** Event k is a pass, not later than the given time, that leaves the panel as selected. */
  predicate UpdatesPanel(s: State, events: seq<Event>, k: int, latest: int) {
    && 0 <= k < |events|
    && events[k] == Pass
    && At(s, events, k).now <= latest
    && At(s, events, k + 1).device == At(s, events, k + 1).Selected()
  }

  /** Whatever happens: time cannot pass the due wake-up by more than the lateness without a pass,
      and that pass brings the panel up to date. */
  lemma {:induction false} PassComesInTime(s: State, events: seq<Event>, env: Surroundings) returns (k: int)
    requires Legal(s, events, env) && Inv(s, env) && env.tmin > 0
    requires Run(s, events).now > s.nextWake + env.lateness
    ensures UpdatesPanel(s, events, k, s.nextWake + env.lateness)
    decreases |events|
  {
    var e, rest := events[0], events[1..];
    StepKeepsInv(s, e, env);
    if e == Pass {
      k := 0;
      assert events[..1] == [e];
      RunOne(s, e, env);
      PassShowsSelected(s, env);
    } else {
      var j := PassComesInTime(Step(s, e), rest, env);
      k := j + 1;
      AtLater(s, events, j);
      AtLater(s, events, j + 1);
    }
  }

  lemma AtLater(s: State, events: seq<Event>, j: nat)
    requires j < |events|
    ensures At(s, events, j + 1) == At(Step(s, events[0]), events[1..], j)
  {
    assert events[..j + 1][0] == events[0] && events[..j + 1][1..] == events[1..][..j];
  }

  /** From any moment after the first pass, over any further events that take more than
      `tmax + lateness` seconds: some pass within that time brings the panel up to date. */
  lemma PanelIsBroughtUpToDate(s0: State, before: seq<Event>, after: seq<Event>, env: Surroundings) returns (k: int)
    requires Initial(s0) && Legal(s0, before + after, env) && env.tmin > 0
    requires Run(s0, before).phase.Running?
    requires Run(s0, before + after).now > Run(s0, before).now + env.tmax + env.lateness
    ensures UpdatesPanel(Run(s0, before), after, k, Run(s0, before).now + env.tmax + env.lateness)
  {
    RunAppend(s0, before, after, env);
    RunKeepsInv(s0, before, env);
    k := PassComesInTime(Run(s0, before), after, env);
  }

  /** So if nothing else is changed meanwhile, the panel is right at the end, whatever was changed
      before and however stale it was. */
  lemma ChangesReachThePanel(s0: State, before: seq<Event>, after: seq<Event>, env: Surroundings)
    requires Initial(s0) && Legal(s0, before + after, env) && env.tmin > 0 && Quiet(after)
    requires Run(s0, before).phase.Running?
    requires Run(s0, before + after).now > Run(s0, before).now + env.tmax + env.lateness
    ensures Run(s0, before + after).device == Run(s0, before + after).Selected()
  {
    var k := PanelIsBroughtUpToDate(s0, before, after, env);
    RunAppend(s0, before, after, env);
    RunAt(Run(s0, before), after, k, env);
    assert forall e <- after[k + 1..] :: e in after;
    QuietKeepsSelected(At(Run(s0, before), after, k + 1), after[k + 1..], env);
  }

  predicate InRange(s: State) {
    && s.device <= MAX_BRIGHTNESS
    && s.battery.low <= MAX_BRIGHTNESS && s.battery.high <= MAX_BRIGHTNESS
    && s.power.low <= MAX_BRIGHTNESS && s.power.high <= MAX_BRIGHTNESS
  }

  /** The panel level never leaves 0..100, over any sequence of events whatsoever. */
  lemma {:induction false} PanelStaysInRange(s: State, events: seq<Event>)
    requires InRange(s)
    ensures InRange(Run(s, events))
    decreases |events|
  {
    if events == [] {
    } else {
      var e := events[0];
      if e.Input? {
        AfterKeyInRange(s.Current().high, e.key);
      }
      PanelStaysInRange(Step(s, e), events[1..]);
    }
  }

  // ----- Runs of keys

  /** The level a run of inputs is meant to reach: each press moves by one increment, clamped. */
  function Pressed(high: int, keys: seq<Option<uint16>>): int {
    if keys == [] then high
    else
      var key := keys[|keys| - 1];
      var before := Pressed(high, keys[..|keys| - 1]);
      if key == Some(KEY_BRIGHTNESS_UP) then Clamp(before + 10)
      else if key == Some(KEY_BRIGHTNESS_DOWN) then Clamp(before - 10)
      else before
  }

  function InputEvents(keys: seq<Option<uint16>>): seq<Event> {
    seq(|keys|, i requires 0 <= i < |keys| => Input(keys[i]))
  }

  /** Over a run of inputs the upper level follows the clamped presses, while the panel lags one
      input behind: it shows the level from before the last key was handled. */
  lemma {:induction false} PanelLagsOneKey(s: State, keys: seq<Option<uint16>>)
    requires !s.phase.Spawned? && s.Current().high <= MAX_BRIGHTNESS
    ensures var r := Run(s, InputEvents(keys));
            && r.mode == s.mode && !r.phase.Spawned?
            && 0 <= r.Current().high == Pressed(s.Current().high, keys) <= MAX_BRIGHTNESS
            && (keys != [] ==> r.device == Pressed(s.Current().high, keys[..|keys| - 1]) && r.level.High?)
    decreases |keys|
  {
    if keys == [] {
    } else {
      var front, key := keys[..|keys| - 1], keys[|keys| - 1];
      PanelLagsOneKey(s, front);
      assert InputEvents(keys) == InputEvents(front) + [Input(key)];
      RunAppend(s, InputEvents(front), [Input(key)], Surroundings(0, 0, 0));
      var before := Run(s, InputEvents(front));
      RunOne(before, Input(key), Surroundings(0, 0, 0));
      ChangedInRange(before.Current().high, 10);
      ChangedInRange(before.Current().high, -10);
    }
  }

  /** The panel shows the upper level as it is now exactly if the last key left it alone. */
  lemma PanelIsCurrentIff(s: State, keys: seq<Option<uint16>>)
    requires !s.phase.Spawned? && s.Current().high <= MAX_BRIGHTNESS && keys != []
    ensures var n := |keys| - 1;
            var before := Pressed(s.Current().high, keys[..n]);
            Run(s, InputEvents(keys)).device == Run(s, InputEvents(keys)).Current().high <==>
              !(keys[n] == Some(KEY_BRIGHTNESS_UP) && before < MAX_BRIGHTNESS) &&
              !(keys[n] == Some(KEY_BRIGHTNESS_DOWN) && before > 0)
  {
    PanelLagsOneKey(s, keys);
    PanelLagsOneKey(s, keys[..|keys| - 1]);
  }

  /** The release that follows a press carries no key code, and makes the press visible. */
  lemma ReleaseShowsPress(s: State, keys: seq<Option<uint16>>, key: Option<uint16>)
    requires !s.phase.Spawned? && s.Current().high <= MAX_BRIGHTNESS
    ensures Run(s, InputEvents(keys + [key, None])).device == Pressed(s.Current().high, keys + [key])
  {
    var all := keys + [key, None];
    assert all[..|all| - 1] == keys + [key];
    PanelLagsOneKey(s, all);
  }
}
