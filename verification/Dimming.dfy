/** kmod/framework_callout.c with the last-input clock of kmod/framework_evdev.c: the thread that
    dims the panel. It never watches idle time; it sleeps a computed number of seconds, samples
    the last input, perhaps sets the level to Dim, pushes a level to the panel and sleeps again.
    Input events set the level back to High from other threads. Here a pass of the thread and the
    handling of an input are each one step; DimmingRace.dfy splits the pass. */
module Dimming {
  import opened MachineIntegers
  import opened Screen
  import opened KeyHandler
  import opened Backlight

  datatype Level = Dim | High
  datatype Mode = Battery | Power

  /** Spawned: the thread exists but has not installed the input callback. Wired: it has, and its
      first pass is still to come. Stopped: it sampled a timeout of 0 and left its loop. */
  datatype Phase = Spawned | Wired | Running | Stopped

  datatype Config = Config(low: uint32, high: uint32, timeout: uint32)

  datatype State = State(
    now: nat, lastInput: nat, level: Level, nextWake: nat, device: uint32,
    mode: Mode, battery: Config, power: Config, phase: Phase)
  {
    function Current(): Config {
      if mode.Battery? then battery else power
    }

    function With(m: Mode, c: Config): State {
      if m.Battery? then this.(battery := c) else this.(power := c)
    }

    function Of(m: Mode): Config {
      if m.Battery? then battery else power
    }

    /** Seconds since the last input. */
    function Idle(): int {
      now - lastInput
    }

    /** The brightness that level, power mode and configuration select. */
    function Selected(): uint32 {
      if level.Dim? then Current().low else Current().high
    }

    /** `elapsed_time`, with the guard against a last input in the future. */
    function Elapsed(): uint32 {
      Wrap32(now - (if lastInput > now then now else lastInput))
    }
  }

  datatype Event =
    | Tick                                     // one second passes
    | Wire                                     // the thread installs the input callback
    | Pass                                     // one turn of the thread's loop
    | Input(key: Option<uint16>)               // input, with a key code if one was read
    | SetLow(m: Mode, value: uint32)
    | SetHigh(m: Mode, value: uint32)
    | SetTimeout(m: Mode, value: uint32)
    | SwitchMode(to: Mode)

  function NextSleep(elapsed: uint32, timeout: uint32): uint32 {
    if elapsed < timeout then timeout - elapsed else timeout
  }

  function AfterPass(s: State): State {
    var timeout := s.Current().timeout;
    if timeout == 0 then
      s.(phase := Stopped)
    else
      var s1 := s.(level := if s.Elapsed() >= timeout then Dim else s.level, phase := Running);
      s1.(device := s1.Selected(), nextWake := s.now + NextSleep(s.Elapsed(), timeout))
  }

  /** The panel gets the upper level as it was before the key changes it. */
  function AfterInput(s: State, key: Option<uint16>): State {
    var s1 := s.(lastInput := s.now);
    if s.phase.Spawned? then
      s1
    else
      var c := s.Current();
      s1.(level := High, device := c.high).With(s.mode, c.(high := AfterKey(c.high, key)))
  }

  function Step(s: State, e: Event): State {
    match e
    case Tick => s.(now := s.now + 1)
    case Wire => s.(phase := Wired)
    case Pass => AfterPass(s)
    case Input(key) => AfterInput(s, key)
    case SetLow(m, v) => if v <= MAX_BRIGHTNESS then s.With(m, s.Of(m).(low := v)) else s
    case SetHigh(m, v) => if v <= MAX_BRIGHTNESS then s.With(m, s.Of(m).(high := v)) else s
    case SetTimeout(m, v) => s.With(m, s.Of(m).(timeout := v))
    case SwitchMode(m) => s.(mode := m)
  }

  function Run(s: State, events: seq<Event>): State
    decreases |events|
  {
    if events == [] then s else Run(Step(s, events[0]), events[1..])
  }

  /** The thread as it is created: level High and shown, about to run, some earlier last input. */
  predicate Initial(s: State) {
    && s.phase.Spawned?
    && s.level.High?
    && s.device == s.Current().high
    && s.lastInput <= s.now == s.nextWake
    && s.now < TWO_TO_THE_32
  }

  /** What is assumed of the surroundings: the thread gets to run at most `lateness` seconds after
      its wake-up time, and the timeouts it samples lie in `tmin..tmax`. */
  datatype Surroundings = Surroundings(lateness: nat, tmin: nat, tmax: nat)

  predicate Enabled(s: State, e: Event, env: Surroundings) {
    match e
    case Tick => s.now + 1 < TWO_TO_THE_32 && (s.phase.Stopped? || s.now < s.nextWake + env.lateness)
    case Wire => s.phase.Spawned?
    case Pass =>
      && (s.phase.Wired? || s.phase.Running?)
      && s.now >= s.nextWake
      && env.tmin <= s.Current().timeout <= env.tmax
    case _ => true
  }

  predicate Legal(s: State, events: seq<Event>, env: Surroundings)
    decreases |events|
  {
    events == [] || (Enabled(s, events[0], env) && Legal(Step(s, events[0]), events[1..], env))
  }

  /** The running module: settings, panel and thread state as mutable objects. */
  class Dimmer {
    var now: nat                    // time_uptime
    var lastInput: nat              // framework_evdev.last_input
    var wired: bool                 // framework_evdev.cbfunc is the callout's, drop flag clear
    var active: bool                // co->active
    var level: Level                // co->current_level
    var nextWake: nat               // when the thread's sleep ends
    var mode: Mode                  // what the battery reports
    ghost var passed: bool          // the first pass is over
    const battery: ScreenConfig
    const power: ScreenConfig
    const panel: Panel

    ghost predicate Valid()
      reads this, panel
    {
      && battery != power
      && panel.attached
      && (passed ==> wired)
      && (!active ==> wired)
    }

    ghost function View(): State
      reads this, battery, power, panel
    {
      State(now, lastInput, level, nextWake, panel.level, mode,
            Config(battery.low, battery.high, battery.timeout),
            Config(power.low, power.high, power.timeout),
            if !active then Stopped else if passed then Running else if wired then Wired else Spawned)
    }

    /** `framework_callout_init` on the default settings of `framework_screen_init`. */
    constructor (now: nat, lastInput: nat, mode: Mode, panel: Panel)
      requires panel.attached && lastInput <= now < TWO_TO_THE_32
      modifies panel
      ensures Valid() && fresh(battery) && fresh(power) && this.panel == panel
      ensures Initial(View()) && View().now == now && View().lastInput == lastInput && View().mode == mode
      ensures View().power == Config(30, 100, 10) && View().battery == Config(3, 40, 10)
    {
      this.now, this.lastInput, this.mode, this.panel := now, lastInput, mode, panel;
      wired, active, passed, level, nextWake := false, true, false, High, now;
      power := new ScreenConfig(30, 100, 10);
      battery := new ScreenConfig(3, 40, 10);
      new;
      var brightness := GetBrightnessFor();
      var _ := panel.SetBrightness(brightness, true, 0);
    }

    function CurrentConfig(): ScreenConfig
      reads this
    {
      if mode.Battery? then battery else power
    }

    /** The four settings a brightness can come from, by power mode and level. */
    ghost function SettingFor(m: Mode, l: Level): uint32
      reads battery, power
    {
      match (m, l)
      case (Battery, Dim) => battery.low
      case (Battery, High) => battery.high
      case (Power, Dim) => power.low
      case (Power, High) => power.high
    }

    method GetBrightnessFor() returns (brightness: uint32)
      ensures brightness == View().Selected() == SettingFor(mode, level)
    {
      match level
      case Dim => brightness := CurrentConfig().low;
      case High => brightness := CurrentConfig().high;
    }

    method Tick()
      requires Valid()
      modifies this`now
      ensures Valid() && View() == Step(old(View()), Event.Tick)
    {
      now := now + 1;
    }

    method Wire()
      requires Valid() && View().phase.Spawned?
      modifies this`wired
      ensures Valid() && View() == Step(old(View()), Event.Wire)
    {
      wired := true;
    }

    /** `framework_evdev_oninput` calling `framework_callout_inputintr`. */
    method OnInput(key: Option<uint16>)
      requires Valid()
      modifies this`lastInput, this`level, battery`high, power`high, panel
      ensures Valid() && View() == Step(old(View()), Input(key))
      ensures lastInput == now
      ensures wired ==> level.High? && panel.level == old(SettingFor(mode, High))
      ensures !wired ==> level == old(level) && panel.level == old(panel.level)
    {
      lastInput := now;
      if !wired {
        return;
      }
      level := High;
      var brightness := GetBrightnessFor();
      match key {
        case Some(code) =>
          var _ := HandleKey(CurrentConfig(), code);
        case None =>
      }
      var _ := panel.SetBrightness(brightness, true, 0);
    }

    /** One turn of the loop in `framework_callout_thread`, up to its `msleep`. */
    method ThreadPass()
      requires Valid() && active && wired
      modifies this`active, this`level, this`nextWake, this`passed, panel
      ensures Valid() && View() == Step(old(View()), Pass)
      ensures active <==> (if mode.Battery? then battery.timeout else power.timeout) != 0
      ensures active ==> panel.level == SettingFor(mode, level)
    {
      var timeout := CurrentConfig().timeout;
      if 0 == timeout {
        active := false;
        return;
      }
      var last := lastInput;
      if last > now {
        last := now;
      }
      var elapsed := Wrap32(now - last);
      if elapsed >= timeout {
        level := Dim;
      }
      var brightness := GetBrightnessFor();
      var _ := panel.SetBrightness(brightness, true, 0);
      var seconds := if elapsed < timeout then timeout - elapsed else timeout;
      nextWake := now + seconds;
      passed := true;
    }

    method ConfigOf(m: Mode) returns (c: ScreenConfig)
      ensures c == if m.Battery? then battery else power
    {
      c := if m.Battery? then battery else power;
    }

    method SysctlLow(m: Mode, value: uint32)
      requires Valid()
      modifies battery`low, power`low
      ensures Valid() && View() == Step(old(View()), SetLow(m, value))
    {
      var c := ConfigOf(m);
      c.SysctlLow(value);
    }

    method SysctlHigh(m: Mode, value: uint32)
      requires Valid()
      modifies battery`high, power`high
      ensures Valid() && View() == Step(old(View()), SetHigh(m, value))
    {
      var c := ConfigOf(m);
      c.SysctlHigh(value);
    }

    method SysctlTimeout(m: Mode, value: uint32)
      requires Valid()
      modifies battery`timeout, power`timeout
      ensures Valid() && View() == Step(old(View()), SetTimeout(m, value))
    {
      var c := ConfigOf(m);
      c.SysctlTimeout(value);
    }

    method SwitchMode(to: Mode)
      requires Valid()
      modifies this`mode
      ensures Valid() && View() == Step(old(View()), Event.SwitchMode(to))
    {
      mode := to;
    }
  }
}
