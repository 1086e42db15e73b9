/** kmod/framework_callout.c: how destroying the callout ends its loop thread. The thread and the
    destroyer share the `active` flag, one mutex and one sleep channel, and interleave between
    any two locked sections. The thread is taken from the point where its callback is installed. */
module CalloutShutdown {
  import opened MachineIntegers

  datatype Tid = Loop | Destroyer

  /** Where the loop thread is. In the states marked (held) it owns the mutex. */
  datatype LoopPc =
    | Enter                   // about to lock for the loop condition
    | Check                   // (held) `while (co->active)`
    | ReadTimeout             // reads the timeout of the current power mode
    | RelockTimeout(t: nat)
    | TestTimeout(t: nat)     // (held) leaves on timeout 0
    | ReadInput               // reads the last input, through the evdev lock only
    | RelockInput
    | DimCheck                // (held) may set the level
    | PushLevel               // fetches and pushes the brightness
    | RelockPush
    | ToSleep                 // (held) computes the wait and calls msleep
    | Asleep                  // in msleep, with a timeout
    | Woken                   // has to lock again before msleep returns
    | Leave                   // (held) after the loop
    | FinalWakeup             // wakeup(co): uses the address only
    | Exited

  datatype DestroyerPc =
    | ClearCallback
    | LockFirst
    | TestActive              // (held)
    | WaitAsleep              // in msleep, without a timeout
    | WaitWoken
    | Unlock                  // (held)
    | Free
    | Done

  datatype State = State(
    active: bool, owner: Option<Tid>, sleepers: set<Tid>,
    loop: LoopPc, destroyer: DestroyerPc, freed: bool)

  /** The loop thread takes a step, its sleep times out, or the destroyer takes a step. */
  datatype Event = LoopStep(timeout: nat) | LoopTimesOut | DestroyerStep

  predicate LoopHolds(pc: LoopPc) {
    pc.Check? || pc.TestTimeout? || pc.DimCheck? || pc.ToSleep? || pc.Leave?
  }

  predicate LoopWantsLock(pc: LoopPc) {
    pc.Enter? || pc.RelockTimeout? || pc.RelockInput? || pc.RelockPush? || pc.Woken?
  }

  /** The steps that read or write the callout structure, its mutex included. */
  predicate LoopTouchesCallout(pc: LoopPc) {
    !pc.ReadInput? && !pc.FinalWakeup? && !pc.Exited?
  }

  predicate DestroyerHolds(pc: DestroyerPc) {
    pc.TestActive? || pc.Unlock?
  }

  predicate DestroyerWantsLock(pc: DestroyerPc) {
    pc.LockFirst? || pc.WaitWoken?
  }

  predicate Enabled(s: State, e: Event) {
    match e
    case LoopStep(_) => !s.loop.Asleep? && !s.loop.Exited? && (LoopWantsLock(s.loop) ==> s.owner.None?)
    case LoopTimesOut => s.loop.Asleep?
    case DestroyerStep =>
      && !s.destroyer.WaitAsleep? && !s.destroyer.Done?
      && (DestroyerWantsLock(s.destroyer) ==> s.owner.None?)
  }

  /** `wakeup`: every sleeper has to get the lock back before it continues. */
  function Wakeup(s: State): State {
    s.(sleepers := {},
       loop := if Loop in s.sleepers then Woken else s.loop,
       destroyer := if Destroyer in s.sleepers then WaitWoken else s.destroyer)
  }

  function LoopNext(s: State, timeout: nat): State {
    match s.loop
    case Enter => s.(owner := Some(Loop), loop := Check)
    case Check => if s.active then s.(owner := None, loop := ReadTimeout) else s.(loop := Leave)
    case ReadTimeout => s.(loop := RelockTimeout(timeout))
    case RelockTimeout(t) => s.(owner := Some(Loop), loop := TestTimeout(t))
    case TestTimeout(t) =>
      if t == 0 then s.(active := false, loop := Leave) else s.(owner := None, loop := ReadInput)
    case ReadInput => s.(loop := RelockInput)
    case RelockInput => s.(owner := Some(Loop), loop := DimCheck)
    case DimCheck => s.(owner := None, loop := PushLevel)
    case PushLevel => s.(loop := RelockPush)
    case RelockPush => s.(owner := Some(Loop), loop := ToSleep)
    case ToSleep => s.(owner := None, sleepers := s.sleepers + {Loop}, loop := Asleep)
    case Woken => s.(owner := Some(Loop), loop := Check)
    case Leave => s.(owner := None, loop := FinalWakeup)
    case FinalWakeup => Wakeup(s.(loop := Exited))
    case Asleep => s
    case Exited => s
  }

  function DestroyerNext(s: State): State {
    match s.destroyer
    case ClearCallback => s.(destroyer := LockFirst)
    case LockFirst => s.(owner := Some(Destroyer), destroyer := TestActive)
    case TestActive =>
      if s.active then
        var s1 := Wakeup(s.(active := false));
        s1.(owner := None, sleepers := s1.sleepers + {Destroyer}, destroyer := WaitAsleep)
      else s.(destroyer := Unlock)
    case WaitWoken => s.(owner := Some(Destroyer), destroyer := Unlock)
    case Unlock => s.(owner := None, destroyer := Free)
    case Free => s.(freed := true, destroyer := Done)
    case WaitAsleep => s
    case Done => s
  }

  function Step(s: State, e: Event): State
    requires Enabled(s, e)
  {
    match e
    case LoopStep(t) => LoopNext(s, t)
    case LoopTimesOut => s.(sleepers := s.sleepers - {Loop}, loop := Woken)
    case DestroyerStep => DestroyerNext(s)
  }

  const START: State := State(true, None, {}, Enter, ClearCallback, false)

  predicate Legal(s: State, events: seq<Event>)
    decreases |events|
  {
    events == [] || (Enabled(s, events[0]) && Legal(Step(s, events[0]), events[1..]))
  }

  function Run(s: State, events: seq<Event>): State
    requires Legal(s, events)
    decreases |events|
  {
    if events == [] then s else Run(Step(s, events[0]), events[1..])
  }

  /** The callout and its two threads as mutable state; one method call is one step of a thread. */
  class Callout {
    var active: bool
    var owner: Option<Tid>
    var sleepers: set<Tid>
    var loop: LoopPc
    var destroyer: DestroyerPc
    var freed: bool

    function View(): State
      reads this
    {
      State(active, owner, sleepers, loop, destroyer, freed)
    }

    constructor ()
      ensures View() == START
    {
      active, owner, sleepers, loop, destroyer, freed := true, None, {}, Enter, ClearCallback, false;
    }

    method MtxLock(t: Tid)
      requires owner.None?
      modifies this`owner
      ensures owner == Some(t)
    {
      owner := Some(t);
    }

    method MtxUnlock(t: Tid)
      requires owner == Some(t)
      modifies this`owner
      ensures owner.None?
    {
      owner := None;
    }

    /** Gives up the mutex and falls asleep in one step. */
    method MSleep(t: Tid)
      requires owner == Some(t)
      modifies this`owner, this`sleepers, this`loop, this`destroyer
      ensures owner.None? && sleepers == old(sleepers) + {t}
      ensures loop == if t.Loop? then Asleep else old(loop)
      ensures destroyer == if t.Destroyer? then WaitAsleep else old(destroyer)
    {
      owner := None;
      sleepers := sleepers + {t};
      match t
      case Loop => loop := Asleep;
      case Destroyer => destroyer := WaitAsleep;
    }

    method WakeupAll()
      modifies this`sleepers, this`loop, this`destroyer
      ensures View() == Wakeup(old(View()))
    {
      if Loop in sleepers {
        loop := Woken;
      }
      if Destroyer in sleepers {
        destroyer := WaitWoken;
      }
      sleepers := {};
    }

    method StepLoop(timeout: nat)
      requires Enabled(View(), LoopStep(timeout)) && Inv(View())
      modifies this
      ensures View() == Step(old(View()), LoopStep(timeout))
    {
      match loop
      case Enter =>
        MtxLock(Loop);
        loop := Check;
      case Check =>
        if active {
          MtxUnlock(Loop);
          loop := ReadTimeout;
        } else {
          loop := Leave;
        }
      case ReadTimeout =>
        loop := RelockTimeout(timeout);
      case RelockTimeout(t) =>
        MtxLock(Loop);
        loop := TestTimeout(t);
      case TestTimeout(t) =>
        if 0 == t {
          active := false;
          loop := Leave;
        } else {
          MtxUnlock(Loop);
          loop := ReadInput;
        }
      case ReadInput =>
        loop := RelockInput;
      case RelockInput =>
        MtxLock(Loop);
        loop := DimCheck;
      case DimCheck =>
        MtxUnlock(Loop);
        loop := PushLevel;
      case PushLevel =>
        loop := RelockPush;
      case RelockPush =>
        MtxLock(Loop);
        loop := ToSleep;
      case ToSleep =>
        MSleep(Loop);
      case Woken =>
        MtxLock(Loop);
        loop := Check;
      case Leave =>
        MtxUnlock(Loop);
        loop := FinalWakeup;
      case FinalWakeup =>
        loop := Exited;
        WakeupAll();
    }

    method SleepTimesOut()
      requires Enabled(View(), LoopTimesOut)
      modifies this`sleepers, this`loop
      ensures View() == Step(old(View()), LoopTimesOut)
    {
      sleepers := sleepers - {Loop};
      loop := Woken;
    }

    method StepDestroyer()
      requires Enabled(View(), DestroyerStep) && Inv(View())
      modifies this
      ensures View() == Step(old(View()), DestroyerStep)
    {
      match destroyer
      case ClearCallback =>
        destroyer := LockFirst;
      case LockFirst =>
        MtxLock(Destroyer);
        destroyer := TestActive;
      case TestActive =>
        if active {
          active := false;
          WakeupAll();
          MSleep(Destroyer);
        } else {
          destroyer := Unlock;
        }
      case WaitWoken =>
        MtxLock(Destroyer);
        destroyer := Unlock;
      case Unlock =>
        MtxUnlock(Destroyer);
        destroyer := Free;
      case Free =>
        freed := true;
        destroyer := Done;
    }

    /** Any interleaving, played on the object: it goes where the run goes, and whenever the callout
        has been freed the loop thread is past its last access to it. */
    method Drive(events: seq<Event>)
      requires Inv(View()) && Legal(View(), events)
      modifies this
      ensures View() == Run(old(View()), events) && Inv(View())
      ensures freed || destroyer.Free? ==> !LoopTouchesCallout(loop) && Loop !in sleepers && owner != Some(Loop)
      ensures destroyer.WaitAsleep? ==> !loop.Exited?
    {
      ghost var end := Run(View(), events);
      var i := 0;
      assert events[0..] == events;
      while i < |events|
        invariant 0 <= i <= |events| && Inv(View())
        invariant Legal(View(), events[i..]) && Run(View(), events[i..]) == end
      {
        assert events[i..][0] == events[i] && events[i..][1..] == events[i + 1..];
        StepKeepsInv(View(), events[i]);
        match events[i] {
          case LoopStep(timeout) => StepLoop(timeout);
          case LoopTimesOut => SleepTimesOut();
          case DestroyerStep => StepDestroyer();
        }
        i := i + 1;
      }
    }
  }

  // ----- Safety

  /** The loop thread is past its last access to the callout. */
  predicate LoopIsOut(pc: LoopPc) {
    pc.FinalWakeup? || pc.Exited?
  }

  /** What every interleaving keeps. */
  predicate Inv(s: State) {
    // the mutex is owned by whoever is in a locked section, the channel holds whoever sleeps
    && (s.owner == Some(Loop) <==> LoopHolds(s.loop))
    && (s.owner == Some(Destroyer) <==> DestroyerHolds(s.destroyer))
    && (Loop in s.sleepers <==> s.loop.Asleep?)
    && (Destroyer in s.sleepers <==> s.destroyer.WaitAsleep?)
    // the flag is cleared by the destroyer when it goes to sleep, or by the loop when it leaves
    && (s.active ==> s.destroyer.ClearCallback? || s.destroyer.LockFirst? || s.destroyer.TestActive?)
    && (s.loop.Leave? || LoopIsOut(s.loop) ==> !s.active)
    && (!s.active && !s.destroyer.WaitAsleep? ==> s.loop.Leave? || LoopIsOut(s.loop))
    // the destroyer waits only for a wakeup that is still to come, and goes on only after it
    && (s.destroyer.WaitAsleep? ==> !s.loop.Exited?)
    && (s.destroyer.WaitWoken? || s.destroyer.Unlock? || s.destroyer.Free? || s.destroyer.Done? ==> LoopIsOut(s.loop))
    && (s.freed <==> s.destroyer.Done?)
  }

  lemma StepKeepsInv(s: State, e: Event)
    requires Inv(s) && Enabled(s, e)
    ensures Inv(Step(s, e))
  {
  }

  lemma {:induction false} RunKeepsInv(s: State, events: seq<Event>)
    requires Inv(s) && Legal(s, events)
    ensures Inv(Run(s, events))
    decreases |events|
  {
    if events == [] {
    } else {
      StepKeepsInv(s, events[0]);
      RunKeepsInv(Step(s, events[0]), events[1..]);
    }
  }

  lemma OwnerIsLoopOrDestroyer(s: State)
    ensures s.owner == None || s.owner == Some(Loop) || s.owner == Some(Destroyer)
  {
    if s.owner.Some? {
      assert s.owner.value == Loop || s.owner.value == Destroyer;
    }
  }

  /** In every interleaving of loop thread and destroyer: when the destroyer destroys the mutex and
      frees the callout, neither of them holds or awaits the mutex or sleeps on the callout, and from
      then on the loop thread never touches it again. */
  lemma NoTouchAfterFree(events: seq<Event>)
    requires Legal(START, events)
    ensures var s := Run(START, events);
            && (s.destroyer.Free? ==> s.owner.None? && s.sleepers == {} && !LoopWantsLock(s.loop))
            && (s.destroyer.Free? || s.freed ==> !LoopTouchesCallout(s.loop))
  {
    RunKeepsInv(START, events);
    var s := Run(START, events);
    OwnerIsLoopOrDestroyer(s);
    assert forall t <- s.sleepers :: t == Loop || t == Destroyer;
  }

  // ----- The thread at work

  /** Everything but the destroyer, with timeouts other than 0. */
  predicate PositiveTimeouts(events: seq<Event>) {
    forall e <- events :: !e.DestroyerStep? && (e.LoopStep? ==> e.timeout > 0)
  }

  /** The loop thread is in its loop, with the flag set, and has sampled no 0. */
  predicate AtWork(s: State) {
    && s.active && s.destroyer.ClearCallback?
    && !s.loop.Leave? && !LoopIsOut(s.loop)
    && (s.loop.RelockTimeout? || s.loop.TestTimeout? ==> s.loop.t > 0)
  }

  lemma {:induction false} StaysAtWork(s: State, events: seq<Event>)
    requires AtWork(s) && Legal(s, events) && PositiveTimeouts(events)
    ensures AtWork(Run(s, events))
    decreases |events|
  {
    if events == [] {
    } else {
      assert events[0] in events;
      StaysAtWork(Step(s, events[0]), events[1..]);
    }
  }

  /** As long as nobody destroys it and its timeouts are positive, the thread never leaves its loop. */
  lemma WorksOnPositiveTimeouts(events: seq<Event>)
    requires Legal(START, events) && PositiveTimeouts(events)
    ensures var s := Run(START, events);
            s.active && !s.loop.Leave? && !LoopIsOut(s.loop)
  {
    StaysAtWork(START, events);
  }

  function Repeat(e: Event, n: nat): seq<Event> {
    if n == 0 then [] else [e] + Repeat(e, n - 1)
  }

  lemma RunCons(s: State, e: Event, rest: seq<Event>)
    requires Enabled(s, e) && Legal(Step(s, e), rest)
    ensures Legal(s, [e] + rest) && Run(s, [e] + rest) == Run(Step(s, e), rest)
  {
    assert ([e] + rest)[1..] == rest;
  }

  lemma {:induction false} RunAppend(s: State, a: seq<Event>, b: seq<Event>)
    requires Legal(s, a) && Legal(Run(s, a), b)
    ensures Legal(s, a + b) && Run(s, a + b) == Run(Run(s, a), b)
    decreases |a|
  {
    if a == [] {
      assert a + b == b;
    } else {
      RunAppend(Step(s, a[0]), a[1..], b);
      RunCons(s, a[0], a[1..] + b);
      assert a + b == [a[0]] + (a[1..] + b);
    }
  }

  /** Four steps of the loop thread, each enabled. */
  lemma FourSteps(s: State, e: Event, s1: State, s2: State, s3: State)
    requires Enabled(s, e) && s1 == Step(s, e) && Enabled(s1, e) && s2 == Step(s1, e)
    requires Enabled(s2, e) && s3 == Step(s2, e) && Enabled(s3, e)
    ensures Legal(s, Repeat(e, 4)) && Run(s, Repeat(e, 4)) == Step(s3, e)
  {
    assert Repeat(e, 1) == [e] + [] && Repeat(e, 2) == [e] + Repeat(e, 1);
    assert Repeat(e, 3) == [e] + Repeat(e, 2) && Repeat(e, 4) == [e] + Repeat(e, 3);
    RunCons(s3, e, []);
    RunCons(s2, e, Repeat(e, 1));
    RunCons(s1, e, Repeat(e, 2));
    RunCons(s, e, Repeat(e, 3));
  }

  /** From a sleep that has timed out to the test of the timeout. */
  lemma UpToTest(s: State, t: nat)
    requires s.loop.Woken? && s.owner.None? && s.active
    ensures Legal(s, Repeat(LoopStep(t), 4))
    ensures Run(s, Repeat(LoopStep(t), 4)) == s.(owner := Some(Loop), loop := TestTimeout(t))
  {
    var e := LoopStep(t);
    var s1 := s.(owner := Some(Loop), loop := Check);
    var s2 := s.(owner := None, loop := ReadTimeout);
    var s3 := s.(owner := None, loop := RelockTimeout(t));
    FourSteps(s, e, s1, s2, s3);
  }

  /** From there to the push of the brightness, and on into the next sleep. */
  lemma UpToPush(s: State, t: nat)
    requires s.loop == TestTimeout(t) && s.owner == Some(Loop) && t > 0
    ensures Legal(s, Repeat(LoopStep(t), 4))
    ensures Run(s, Repeat(LoopStep(t), 4)) == s.(owner := None, loop := PushLevel)
  {
    var e := LoopStep(t);
    var s1 := s.(owner := None, loop := ReadInput);
    var s2 := s.(owner := None, loop := RelockInput);
    var s3 := s.(owner := Some(Loop), loop := DimCheck);
    FourSteps(s, e, s1, s2, s3);
  }

  lemma UpToSleep(s: State, t: nat)
    requires s.loop.PushLevel? && s.owner.None?
    ensures Legal(s, Repeat(LoopStep(t), 3))
    ensures Run(s, Repeat(LoopStep(t), 3)) == s.(sleepers := s.sleepers + {Loop}, loop := Asleep)
  {
    var e := LoopStep(t);
    var s1 := s.(loop := RelockPush);
    var s2 := s.(owner := Some(Loop), loop := ToSleep);
    assert s1 == Step(s, e) && s2 == Step(s1, e);
    assert Repeat(e, 1) == [e] + [] && Repeat(e, 2) == [e] + Repeat(e, 1) && Repeat(e, 3) == [e] + Repeat(e, 2);
    RunCons(s2, e, []);
    RunCons(s1, e, Repeat(e, 1));
    RunCons(s, e, Repeat(e, 2));
  }

  /** A sleep that times out is followed by a whole turn - timeout, input, level and brightness - and
      the next sleep, which finds everything as before. */
  lemma TurnComesBack(s: State, t: nat)
    requires s.loop.Asleep? && s.owner.None? && s.sleepers == {Loop} && s.active && t > 0
    ensures var turn := [LoopTimesOut] + (Repeat(LoopStep(t), 4) + (Repeat(LoopStep(t), 4) + Repeat(LoopStep(t), 3)));
            Legal(s, turn) && Run(s, turn) == s
  {
    var e := LoopStep(t);
    var woken := s.(sleepers := {}, loop := Woken);
    assert Step(s, LoopTimesOut) == woken;
    var test := woken.(owner := Some(Loop), loop := TestTimeout(t));
    var push := woken.(owner := None, loop := PushLevel);
    UpToTest(woken, t);
    UpToPush(test, t);
    UpToSleep(push, t);
    RunAppend(test, Repeat(e, 4), Repeat(e, 3));
    RunAppend(woken, Repeat(e, 4), Repeat(e, 4) + Repeat(e, 3));
    RunCons(s, LoopTimesOut, Repeat(e, 4) + (Repeat(e, 4) + Repeat(e, 3)));
    assert {} + {Loop} == {Loop};
  }

  /** A timeout of 0 makes the thread leave its loop and clear the flag. */
  lemma ZeroTimeoutLeaves(s: State)
    requires s.loop.ReadTimeout? && s.owner.None?
    ensures var turn := Repeat(LoopStep(0), 3);
            && Legal(s, turn)
            && Run(s, turn) == s.(owner := Some(Loop), loop := Leave, active := false)
  {
    var e := LoopStep(0);
    var s1 := s.(loop := RelockTimeout(0));
    var s2 := s.(owner := Some(Loop), loop := TestTimeout(0));
    assert s1 == Step(s, e) && s2 == Step(s1, e);
    assert Repeat(e, 1) == [e] + [] && Repeat(e, 2) == [e] + Repeat(e, 1) && Repeat(e, 3) == [e] + Repeat(e, 2);
    RunCons(s2, e, []);
    RunCons(s1, e, Repeat(e, 1));
    RunCons(s, e, Repeat(e, 2));
  }

  /** The destroyer does not wait for a sleep to time out: its wakeup ends it, and the two come through
      without any further waiting. */
  lemma ShutdownIsPrompt(s: State)
    requires s.loop.Asleep? && s.owner.None? && s.sleepers == {Loop} && s.active && !s.freed
    requires s.destroyer.LockFirst?
    ensures var events := Repeat(DestroyerStep, 2) + (Repeat(LoopStep(0), 4) + Repeat(DestroyerStep, 3));
            && Legal(s, events)
            && Run(s, events) == s.(active := false, sleepers := {}, loop := Exited, destroyer := Done, freed := true)
  {
    var wait := s.(active := false, sleepers := {Destroyer}, loop := Woken, destroyer := WaitAsleep);
    var answered := wait.(sleepers := {}, loop := Exited, destroyer := WaitWoken);
    DestroyerWakesLoop(s);
    LoopComesThrough(wait);
    DestroyerComesThrough(answered);
    RunAppend(wait, Repeat(LoopStep(0), 4), Repeat(DestroyerStep, 3));
    RunAppend(s, Repeat(DestroyerStep, 2), Repeat(LoopStep(0), 4) + Repeat(DestroyerStep, 3));
  }

  /** A thread that has stopped by itself is not waited for. */
  lemma StoppedIsNotAwaited(s: State)
    requires s.destroyer.LockFirst? && s.owner.None? && !s.active && !s.freed
    ensures Legal(s, Repeat(DestroyerStep, 4))
    ensures Run(s, Repeat(DestroyerStep, 4)) == s.(destroyer := Done, freed := true)
  {
    FourSteps(s, DestroyerStep, s.(owner := Some(Destroyer), destroyer := TestActive),
              s.(owner := Some(Destroyer), destroyer := Unlock), s.(destroyer := Free));
  }

  lemma DestroyerWakesLoop(s: State)
    requires s.loop.Asleep? && s.owner.None? && s.sleepers == {Loop} && s.active && s.destroyer.LockFirst?
    ensures Legal(s, Repeat(DestroyerStep, 2))
    ensures Run(s, Repeat(DestroyerStep, 2)) ==
            s.(active := false, sleepers := {Destroyer}, loop := Woken, destroyer := WaitAsleep)
  {
    var e := DestroyerStep;
    var test := s.(owner := Some(Destroyer), destroyer := TestActive);
    assert Step(s, e) == test;
    assert Step(test, e) == s.(active := false, sleepers := {Destroyer}, loop := Woken, destroyer := WaitAsleep);
    assert Repeat(e, 1) == [e] + [] && Repeat(e, 2) == [e] + Repeat(e, 1);
    RunCons(test, e, []);
    RunCons(s, e, Repeat(e, 1));
  }

  lemma LoopComesThrough(s: State)
    requires s.loop.Woken? && s.owner.None? && !s.active && s.sleepers == {Destroyer} && s.destroyer.WaitAsleep?
    ensures Legal(s, Repeat(LoopStep(0), 4))
    ensures Run(s, Repeat(LoopStep(0), 4)) == s.(sleepers := {}, loop := Exited, destroyer := WaitWoken)
  {
    FourSteps(s, LoopStep(0), s.(owner := Some(Loop), loop := Check), s.(owner := Some(Loop), loop := Leave),
              s.(loop := FinalWakeup));
  }

  lemma DestroyerComesThrough(s: State)
    requires s.destroyer.WaitWoken? && s.owner.None?
    ensures Legal(s, Repeat(DestroyerStep, 3))
    ensures Run(s, Repeat(DestroyerStep, 3)) == s.(destroyer := Done, freed := true)
  {
    var e := DestroyerStep;
    var s1 := s.(owner := Some(Destroyer), destroyer := Unlock);
    var s2 := s.(destroyer := Free);
    assert s1 == Step(s, e) && s2 == Step(s1, e);
    assert Repeat(e, 1) == [e] + [] && Repeat(e, 2) == [e] + Repeat(e, 1) && Repeat(e, 3) == [e] + Repeat(e, 2);
    RunCons(s2, e, []);
    RunCons(s1, e, Repeat(e, 1));
    RunCons(s, e, Repeat(e, 2));
  }

  // ----- Liveness

  /** Steps the loop thread can still take once the flag is clear. */
  function LoopRemaining(pc: LoopPc): nat {
    match pc
    case ReadTimeout => 15
    case RelockTimeout(_) => 14
    case TestTimeout(_) => 13
    case ReadInput => 12
    case RelockInput => 11
    case DimCheck => 10
    case PushLevel => 9
    case RelockPush => 8
    case ToSleep => 7
    case Asleep => 6
    case Enter => 5
    case Woken => 5
    case Check => 4
    case Leave => 3
    case FinalWakeup => 2
    case Exited => 0
  }

  function DestroyerRemaining(pc: DestroyerPc): nat {
    match pc
    case ClearCallback => 6
    case LockFirst => 5
    case TestActive => 4
    case WaitAsleep => 4
    case WaitWoken => 3
    case Unlock => 2
    case Free => 1
    case Done => 0
  }

  function Remaining(s: State): nat {
    LoopRemaining(s.loop) + DestroyerRemaining(s.destroyer)
  }

  function TimedSleeps(s: State, events: seq<Event>): nat
    requires Legal(s, events)
    decreases |events|
  {
    if events == [] then 0
    else (if s.loop.ToSleep? && events[0].LoopStep? then 1 else 0) + TimedSleeps(Step(s, events[0]), events[1..])
  }

  /** Whether the loop thread is still before the one sleep it may fall into unawares. */
  predicate BeforeSleep(pc: LoopPc) {
    LoopRemaining(pc) >= 7
  }

  lemma StepShortens(s: State, e: Event)
    requires Inv(s) && Enabled(s, e) && !s.active
    ensures Remaining(Step(s, e)) < Remaining(s) && !Step(s, e).active
    ensures BeforeSleep(Step(s, e).loop) ==> BeforeSleep(s.loop) && !(s.loop.ToSleep? && e.LoopStep?)
  {
  }

  /** Somebody can always go on until both threads are through: no sleep is left unanswered. */
  lemma AlwaysSomebodyGoesOn(s: State)
    requires Inv(s) && !(s.loop.Exited? && s.destroyer.Done?)
    ensures Enabled(s, LoopStep(1)) || Enabled(s, LoopTimesOut) || Enabled(s, DestroyerStep)
  {
    OwnerIsLoopOrDestroyer(s);
  }

  lemma {:induction false} ShutdownIsShort(s: State, events: seq<Event>)
    requires Inv(s) && Legal(s, events) && !s.active
    ensures |events| <= Remaining(s)
    ensures TimedSleeps(s, events) <= if BeforeSleep(s.loop) then 1 else 0
    decreases |events|
  {
    if events == [] {
    } else {
      StepShortens(s, events[0]);
      StepKeepsInv(s, events[0]);
      ShutdownIsShort(Step(s, events[0]), events[1..]);
    }
  }

  /** Once the flag is clear, by the destroyer or by the loop thread itself on timeout 0: whatever
      the scheduling, only boundedly many steps remain, at most one of them a timed sleep, and a
      run that cannot be continued has freed the callout and ended the thread. */
  lemma DestroyFinishes(before: seq<Event>, after: seq<Event>)
    requires Legal(START, before) && !Run(START, before).active && Legal(Run(START, before), after)
    ensures |after| <= Remaining(Run(START, before)) <= 21
    ensures TimedSleeps(Run(START, before), after) <= 1
    ensures var s := Run(Run(START, before), after);
            (forall t :: !Enabled(s, LoopStep(t))) && !Enabled(s, LoopTimesOut) && !Enabled(s, DestroyerStep) ==>
              s.freed && s.loop.Exited?
  {
    RunKeepsInv(START, before);
    ShutdownIsShort(Run(START, before), after);
    RunKeepsInv(Run(START, before), after);
    var s := Run(Run(START, before), after);
    if !(s.loop.Exited? && s.destroyer.Done?) {
      AlwaysSomebodyGoesOn(s);
    }
  }
}
