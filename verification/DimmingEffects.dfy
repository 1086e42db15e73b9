/** What single events of the dimming machine do, and when it stops, in terms of its fields. */
module DimmingEffects {
  import opened MachineIntegers
  import opened Screen
  import opened KeyHandler
  import opened Dimming
  import opened DimmingTiming

  // ----- A pass

  /** After any run, a pass puts on the panel the lower or upper setting of the mode in force. */
  lemma PassShowsOneOfFour(s0: State, events: seq<Event>, env: Surroundings)
    requires Initial(s0) && Legal(s0, events, env) && Enabled(Run(s0, events), Pass, env) && env.tmin > 0
    ensures var s := Step(Run(s0, events), Pass);
            && (s.mode.Battery? && s.level.Dim? ==> s.device == s.battery.low)
            && (s.mode.Battery? && s.level.High? ==> s.device == s.battery.high)
            && (s.mode.Power? && s.level.Dim? ==> s.device == s.power.low)
            && (s.mode.Power? && s.level.High? ==> s.device == s.power.high)
  {
  }

  /** It dims if the last input is as old as that mode's timeout, and otherwise leaves the level; it
      is to wake up when that age can be reached, and touches nothing else. */
  lemma PassByTheClock(s0: State, events: seq<Event>, env: Surroundings)
    requires Initial(s0) && Legal(s0, events, env) && Enabled(Run(s0, events), Pass, env) && env.tmin > 0
    ensures var s, t := Run(s0, events), Step(Run(s0, events), Pass);
            var timeout := if s.mode.Battery? then s.battery.timeout else s.power.timeout;
            var idle := s.now - s.lastInput;
            && t.level == (if idle >= timeout then Dim else s.level)
            && t.nextWake == (if idle >= timeout then s.now + timeout else s.lastInput + timeout)
            && t.phase.Running?
            && t == s.(level := t.level, nextWake := t.nextWake, device := t.device, phase := t.phase)
  {
    RunKeepsInv(s0, events, env);
  }

  // ----- An input

  /** Before the thread has installed its callback an input is only noted. */
  lemma InputBeforeWiring(s: State, key: Option<uint16>)
    requires s.phase.Spawned?
    ensures Step(s, Input(key)) == s.(lastInput := s.now)
  {
  }

  /** Afterwards it sets the level High and shows the upper setting; key 225 then raises that setting,
      and 224 lowers it, by 10 within 0..100, in the mode in force and in no other. */
  lemma InputWhenWired(s: State, key: Option<uint16>)
    requires !s.phase.Spawned?
    ensures var t := Step(s, Input(key));
            && t.lastInput == t.now == s.now && t.level.High?
            && t.device == (if s.mode.Battery? then s.battery.high else s.power.high)
            && t.nextWake == s.nextWake && t.mode == s.mode && t.phase == s.phase
            && (s.mode.Battery? ==> t.power == s.power && t.battery == s.battery.(high := t.battery.high))
            && (s.mode.Power? ==> t.battery == s.battery && t.power == s.power.(high := t.power.high))
    ensures var t := Step(s, Input(key));
            var before := if s.mode.Battery? then s.battery.high else s.power.high;
            var after := if s.mode.Battery? then t.battery.high else t.power.high;
            && (key == Some(225) && before <= 90 ==> after == before + 10)
            && (key == Some(225) && 90 < before <= 100 ==> after == 100)
            && (key == Some(224) && 10 <= before <= 100 ==> after == before - 10)
            && (key == Some(224) && before < 10 ==> after == 0)
            && (key != Some(225) && key != Some(224) ==> after == before)
  {
  }

  // ----- Settings

  /** The value last written to a setting, where an event writes it; else the one before. */
  function LastLow(events: seq<Event>, m: Mode, before: uint32): uint32 {
    if events == [] then before
    else
      var e := events[|events| - 1];
      if e.SetLow? && e.m == m && e.value <= 100 then e.value else LastLow(events[..|events| - 1], m, before)
  }

  function LastHigh(events: seq<Event>, m: Mode, before: uint32): uint32 {
    if events == [] then before
    else
      var e := events[|events| - 1];
      if e.SetHigh? && e.m == m && e.value <= 100 then e.value else LastHigh(events[..|events| - 1], m, before)
  }

  function LastTimeout(events: seq<Event>, m: Mode, before: uint32): uint32 {
    if events == [] then before
    else
      var e := events[|events| - 1];
      if e.SetTimeout? && e.m == m then e.value else LastTimeout(events[..|events| - 1], m, before)
  }

  function LastMode(events: seq<Event>, before: Mode): Mode {
    if events == [] then before
    else
      var e := events[|events| - 1];
      if e.SwitchMode? then e.to else LastMode(events[..|events| - 1], before)
  }

  predicate NoKeys(events: seq<Event>) {
    forall e <- events :: e.Input? ==> e.key.None?
  }

  lemma RunSnoc(s: State, events: seq<Event>)
    requires events != []
    ensures Run(s, events) == Step(Run(s, events[..|events| - 1]), events[|events| - 1])
  {
    var n := |events| - 1;
    assert events == events[..n] + [events[n]];
    RunAppend(s, events[..n], [events[n]], Surroundings(0, 0, 0));
    assert [events[n]][1..] == [];
  }

  /** One event writes at most the setting it names. */
  lemma SettingsAfterOne(s: State, e: Event)
    ensures var t := Step(s, e);
            && t.battery.low == (if e.SetLow? && e.m.Battery? && e.value <= 100 then e.value else s.battery.low)
            && t.power.low == (if e.SetLow? && e.m.Power? && e.value <= 100 then e.value else s.power.low)
            && t.battery.timeout == (if e.SetTimeout? && e.m.Battery? then e.value else s.battery.timeout)
            && t.power.timeout == (if e.SetTimeout? && e.m.Power? then e.value else s.power.timeout)
            && t.mode == (if e.SwitchMode? then e.to else s.mode)
    ensures !(e.Input? && e.key.Some?) ==>
              var t := Step(s, e);
              && t.battery.high == (if e.SetHigh? && e.m.Battery? && e.value <= 100 then e.value else s.battery.high)
              && t.power.high == (if e.SetHigh? && e.m.Power? && e.value <= 100 then e.value else s.power.high)
  {
  }

  /** Over any run each setting of each mode is what was last written to it and not refused, and the
      mode the one last switched to; only keys change a setting besides, and only an upper level. */
  lemma {:induction false} SettingsAreLastWritten(s: State, events: seq<Event>)
    ensures var t := Run(s, events);
            && t.battery.low == LastLow(events, Battery, s.battery.low)
            && t.power.low == LastLow(events, Power, s.power.low)
            && t.battery.timeout == LastTimeout(events, Battery, s.battery.timeout)
            && t.power.timeout == LastTimeout(events, Power, s.power.timeout)
            && t.mode == LastMode(events, s.mode)
    ensures NoKeys(events) ==>
              && Run(s, events).battery.high == LastHigh(events, Battery, s.battery.high)
              && Run(s, events).power.high == LastHigh(events, Power, s.power.high)
    decreases |events|
  {
    if events == [] {
    } else {
      var n := |events| - 1;
      SettingsAreLastWritten(s, events[..n]);
      RunSnoc(s, events);
      SettingsAfterOne(Run(s, events[..n]), events[n]);
      assert events[n] in events;
    }
  }

  // ----- Stopping

  /** A pass samples a timeout of 0 in this run. */
  ghost predicate SamplesZero(s: State, events: seq<Event>) {
    exists i :: 0 <= i < |events| && events[i] == Pass
      && var t := At(s, events, i);
         (if t.mode.Battery? then t.battery.timeout else t.power.timeout) == 0
  }

  lemma {:induction false} StaysStopped(s: State, events: seq<Event>, env: Surroundings)
    requires Legal(s, events, env) && s.phase.Stopped?
    ensures var t := Run(s, events);
            && t.phase.Stopped? && (s.level.High? ==> t.level.High?) && t.nextWake == s.nextWake
    decreases |events|
  {
    if events == [] {
    } else {
      StaysStopped(Step(s, events[0]), events[1..], env);
    }
  }

  /** The thread has stopped exactly if one of its passes sampled a timeout of 0. */
  lemma {:induction false} StopsIffZeroSampled(s: State, events: seq<Event>, env: Surroundings)
    requires Legal(s, events, env) && !s.phase.Stopped?
    ensures Run(s, events).phase.Stopped? <==> SamplesZero(s, events)
    decreases |events|
  {
    if events == [] {
    } else {
      var n := |events| - 1;
      var front := events[..n];
      RunSnoc(s, events);
      RunAt(s, events, n, env);
      assert Legal(s, front, env);
      StopsIffZeroSampled(s, front, env);
      assert forall i :: 0 <= i < n ==> front[..i] == events[..i] && front[i] == events[i];
      if SamplesZero(s, front) {
        var i :| 0 <= i < n && front[i] == Pass
          && var t := At(s, front, i);
             (if t.mode.Battery? then t.battery.timeout else t.power.timeout) == 0;
        assert events[i] == Pass && At(s, events, i) == At(s, front, i);
      }
      if events[n] == Pass {
        assert At(s, events, n) == Run(s, front);
      }
    }
  }

  /** That pass changes nothing else, and from then on the level is never set to Dim again. */
  lemma StoppedNeverDims(s: State, after: seq<Event>, env: Surroundings)
    requires !s.phase.Stopped? && (if s.mode.Battery? then s.battery.timeout else s.power.timeout) == 0
    requires Legal(Step(s, Pass), after, env)
    ensures Step(s, Pass) == s.(phase := Stopped)
    ensures s.level.High? ==> Run(Step(s, Pass), after).level.High?
  {
    StaysStopped(Step(s, Pass), after, env);
  }
}
