/** What the listener and its destroyer guarantee each other, over all interleavings. */
module ListenerShutdownProofs {
  import opened MachineIntegers
  import opened ListenerShutdown

  // ----- Safety

  lemma SleepKeepsOwners(s: State)
    requires Inv(s) && Enabled(s, ListenerStep(false)) && InSleepPart(s.listener)
    ensures Owners(SleepNext(s))
  {
  }

  lemma SleepKeepsAgreement(s: State)
    requires Agreement(s) && InSleepPart(s.listener) && !s.listener.Asleep?
    ensures Agreement(SleepNext(s))
  {
  }

  lemma ReadKeepsOwners(s: State, error: bool)
    requires Inv(s) && Enabled(s, ListenerStep(error)) && InReadPart(s.listener)
    ensures Owners(ReadNext(s, error))
  {
  }

  lemma ReadKeepsAgreement(s: State, error: bool)
    requires Agreement(s) && InReadPart(s.listener)
    ensures Agreement(ReadNext(s, error))
  {
  }

  lemma CallKeepsOwners(s: State)
    requires Inv(s) && Enabled(s, ListenerStep(false)) && InCallPart(s.listener)
    ensures Owners(CallNext(s))
  {
    match s.listener
    case CallUnlock =>
    case Calling =>
    case CallRelock =>
    case LoopEnd =>
  }

  lemma CallKeepsAgreement(s: State)
    requires Agreement(s) && InCallPart(s.listener)
    ensures Agreement(CallNext(s))
  {
  }

  lemma ExitKeepsInv(s: State)
    requires Inv(s) && Enabled(s, ListenerStep(false)) && InExitPart(s.listener)
    ensures Inv(ExitNext(s))
  {
    match s.listener
    case ExitLock =>
    case SetShutdown =>
    case FinalLock =>
    case FinalSession =>
  }

  lemma FinalKeepsInv(s: State)
    requires Inv(s) && Enabled(s, ListenerStep(false)) && InFinalPart(s.listener)
    ensures Inv(FinalNext(s))
  {
    match s.listener
    case ClearThread =>
    case FinalWakeup =>
    case FinalUnlock =>
  }

  lemma StopKeepsInv(s: State)
    requires Inv(s) && Enabled(s, DestroyerStep) && InStopPart(s.destroyer)
    ensures Inv(StopNext(s))
  {
  }

  lemma WaitKeepsInv(s: State)
    requires Inv(s) && Enabled(s, DestroyerStep) && InWaitPart(s.destroyer)
    ensures Inv(WaitNext(s))
  {
    match s.destroyer
    case ReadFlags =>
    case WakeListener =>
    case TestShutdown =>
    case WaitWoken =>
  }

  lemma TeardownKeepsOwners(s: State)
    requires Inv(s) && Enabled(s, DestroyerStep) && InTeardownPart(s.destroyer)
    ensures Owners(TeardownNext(s))
  {
  }

  lemma TeardownKeepsAgreement(s: State)
    requires Inv(s) && Enabled(s, DestroyerStep) && InTeardownPart(s.destroyer)
    ensures Agreement(TeardownNext(s))
  {
  }

  lemma StepKeepsInv(s: State, e: Event)
    requires Inv(s) && Enabled(s, e)
    ensures Inv(Step(s, e))
  {
    match e
    case ListenerStep(error) =>
      if InSleepPart(s.listener) {
        SleepKeepsOwners(s);
        SleepKeepsAgreement(s);
      } else if InReadPart(s.listener) {
        ReadKeepsOwners(s, error);
        ReadKeepsAgreement(s, error);
      } else if InCallPart(s.listener) {
        CallKeepsOwners(s);
        CallKeepsAgreement(s);
      } else if InExitPart(s.listener) {
        ExitKeepsInv(s);
      } else {
        FinalKeepsInv(s);
      }
    case DestroyerStep =>
      if InStopPart(s.destroyer) {
        StopKeepsInv(s);
      } else if InWaitPart(s.destroyer) {
        WaitKeepsInv(s);
      } else {
        TeardownKeepsOwners(s);
        TeardownKeepsAgreement(s);
      }
    case Deliver =>
  }

  lemma {:induction false} RunKeepsInv(s: State, events: seq<Event>)
    requires Inv(s) && Legal(s, events)
    ensures Inv(Run(s, events))
    decreases |events|
  {
    if events == [] {
    } else {
      StepKeepsInv(s, events[0]);
      RunKeepsInv(Step(s, events[0]), events[1..]);
    }
  }

  /** No wakeup is lost, in any interleaving: from the destroyer's wakeup on, the listener is
      neither asleep nor committed to falling asleep, and while the destroyer sleeps the listener
      still has its answering wakeup before it. */
  lemma NoLostWakeup(events: seq<Event>)
    requires Legal(START, events)
    ensures var s := Run(START, events);
            && (Waking(s.destroyer) || InTeardownPart(s.destroyer) ==> !s.listener.Asleep? && !s.listener.Block?)
            && (s.destroyer.WaitAsleep? ==> !WakeupSent(s.listener))
  {
    RunKeepsInv(START, events);
  }

  /** If the destroyer slept, the listener has made its last access to both structures and has let
      go of both mutexes before they are destroyed and freed. */
  lemma WaitingMakesFreeSafe(events: seq<Event>)
    requires Legal(START, events)
    ensures var s := Run(START, events);
            s.waited && (s.destroyer.Free? || s.freed) ==>
              s.listener.Exited? && s.buffer.None? && s.session.None? && s.sleepers == {}
  {
    RunKeepsInv(START, events);
    var s := Run(START, events);
    assert s.buffer.Some? ==> s.buffer.value == Listener || s.buffer.value == Destroyer;
    assert s.session.Some? ==> s.session.value == Listener || s.session.value == Destroyer;
    assert forall t <- s.sleepers :: t == Listener || t == Destroyer;
  }

  // ----- The flags of what the destroyer has to take down

  /** CLIENTREG and KQUEUE are set exactly as long as there is something to take down. */
  predicate RegistrationFlags(s: State) {
    && (s.flags.clientReg <==> s.destroyer.Unregister?)
    && (s.flags.kqueue <==> !s.destroyer.Free? && !s.destroyer.Done?)
  }

  /** Nothing that the two flags are about changes. */
  predicate SameRegistration(s: State, t: State) {
    t.flags.clientReg == s.flags.clientReg && t.flags.kqueue == s.flags.kqueue && t.destroyer == s.destroyer
  }

  lemma ListenerKeepsRegistration(s: State, error: bool)
    requires Owners(s) && Enabled(s, ListenerStep(error)) && RegistrationFlags(s)
    ensures RegistrationFlags(Step(s, ListenerStep(error)))
  {
    if InFinalPart(s.listener) {
      FinalKeepsRegistration(s);
    } else {
      LoopKeepsRegistration(s, error);
    }
  }

  lemma LoopKeepsRegistration(s: State, error: bool)
    requires Enabled(s, ListenerStep(error)) && !InFinalPart(s.listener)
    ensures SameRegistration(s, Step(s, ListenerStep(error)))
  {
    if InSleepPart(s.listener) {
      SameAfter(s, SleepNext(s));
    } else if InReadPart(s.listener) {
      SameAfter(s, ReadNext(s, error));
    } else if InCallPart(s.listener) {
      SameAfter(s, CallNext(s));
    } else {
      SameAfter(s, ExitNext(s));
    }
  }

  lemma SameAfter(s: State, t: State)
    requires t.destroyer == s.destroyer
    requires t.flags.clientReg == s.flags.clientReg && t.flags.kqueue == s.flags.kqueue
    ensures SameRegistration(s, t)
  {
  }

  lemma FinalKeepsRegistration(s: State)
    requires Owners(s) && InFinalPart(s.listener) && RegistrationFlags(s)
    ensures RegistrationFlags(FinalNext(s))
  {
    match s.listener
    case ClearThread =>
    case FinalWakeup =>
    case FinalUnlock =>
  }

  lemma StopKeepsRegistration(s: State)
    requires InStopPart(s.destroyer) && RegistrationFlags(s)
    ensures RegistrationFlags(StopNext(s))
  {
    match s.destroyer
    case Unregister =>
    case StopLock =>
    case ClearActive =>
    case ClearCallback =>
    case BufferLock =>
    case FlagsLock =>
  }

  lemma WaitKeepsRegistration(s: State)
    requires InWaitPart(s.destroyer) && !s.destroyer.WaitAsleep? && Owners(s) && RegistrationFlags(s)
    ensures RegistrationFlags(WaitNext(s))
  {
    match s.destroyer
    case ReadFlags =>
    case WakeListener =>
    case TestShutdown =>
    case WaitWoken =>
  }

  lemma TeardownKeepsRegistration(s: State)
    requires InTeardownPart(s.destroyer) && !s.destroyer.Done? && RegistrationFlags(s)
    ensures RegistrationFlags(TeardownNext(s))
  {
    match s.destroyer
    case BufferUnlock =>
    case KqueueLock =>
    case KqueueClear =>
    case KqueueFlagLock =>
    case KqueueFlag =>
    case Free =>
  }

  lemma DestroyerKeepsRegistration(s: State)
    requires Owners(s) && Enabled(s, DestroyerStep) && RegistrationFlags(s)
    ensures RegistrationFlags(Step(s, DestroyerStep))
  {
    if InStopPart(s.destroyer) {
      StopKeepsRegistration(s);
    } else if InWaitPart(s.destroyer) {
      WaitKeepsRegistration(s);
    } else {
      TeardownKeepsRegistration(s);
    }
  }

  lemma {:induction false} RunKeepsRegistration(s: State, events: seq<Event>)
    requires Inv(s) && RegistrationFlags(s) && Legal(s, events)
    ensures RegistrationFlags(Run(s, events))
    decreases |events|
  {
    if events == [] {
    } else {
      var e := events[0];
      StepKeepsInv(s, e);
      match e {
        case ListenerStep(error) => ListenerKeepsRegistration(s, error);
        case DestroyerStep => DestroyerKeepsRegistration(s);
        case Deliver =>
      }
      RunKeepsRegistration(Step(s, e), events[1..]);
    }
  }

  /** When everything is freed neither flag is left set. */
  lemma NothingRegisteredAtFree(events: seq<Event>)
    requires Legal(START, events) && (Run(START, events).destroyer.Free? || Run(START, events).freed)
    ensures !Run(START, events).flags.clientReg && !Run(START, events).flags.kqueue
  {
    RunKeepsInv(START, events);
    RunKeepsRegistration(START, events);
  }

  // ----- The listener as the evdev connector sees it

  /** InInput: a callback has been copied and is called; Ended: the loop is left for good. */
  datatype Stage = Between | InInput | Ended

  function StageOf(pc: ListenerPc): Stage {
    if pc.CallUnlock? || pc.Calling? then InInput
    else if ListenerIsLeaving(pc) then Ended
    else Between
  }

  /** Input is taken up only while the destroyer has not cleared the active flag, the loop is left
      only after it has. */
  lemma StagesFollowActive(s: State, e: Event)
    requires Inv(s) && Enabled(s, e) && CallbackIffActive(s)
    ensures MayFollow(StageOf(s.listener), StageOf(Step(s, e).listener), s.active)
  {
    match e
    case ListenerStep(error) => ListenerStages(s, error);
    case DestroyerStep => WakingKeepsStage(s);
    case Deliver => WakingKeepsStage(s);
  }

  predicate MayFollow(from: Stage, to: Stage, active: bool) {
    || from == to
    || (from.Between? && to.InInput? && active)
    || (from.InInput? && to.Between?)
    || (from.Between? && to.Ended? && !active)
  }

  lemma ListenerStages(s: State, error: bool)
    requires Inv(s) && Enabled(s, ListenerStep(error)) && CallbackIffActive(s)
    ensures MayFollow(StageOf(s.listener), StageOf(Step(s, ListenerStep(error)).listener), s.active)
  {
    if InSleepPart(s.listener) {
      SleepStages(s);
    } else if InReadPart(s.listener) {
      ReadStages(s, error);
    } else if InCallPart(s.listener) {
      CallStages(s);
    } else if InExitPart(s.listener) {
      ExitStages(s);
    } else {
      FinalStages(s);
    }
  }

  lemma SleepStages(s: State)
    requires InSleepPart(s.listener) && !s.listener.Asleep?
    ensures MayFollow(StageOf(s.listener), StageOf(SleepNext(s).listener), s.active)
  {
    match s.listener
    case LoopTop =>
    case CheckActive =>
    case Block =>
    case Woken =>
  }

  lemma ReadStages(s: State, error: bool)
    requires InReadPart(s.listener) && Owners(s) && CallbackIffActive(s)
    ensures MayFollow(StageOf(s.listener), StageOf(ReadNext(s, error).listener), s.active)
  {
    if s.listener.CbRead? {
      assert s.session == Some(Listener);
    }
  }

  lemma CallStages(s: State)
    requires InCallPart(s.listener)
    ensures MayFollow(StageOf(s.listener), StageOf(CallNext(s).listener), s.active)
  {
    match s.listener
    case CallUnlock =>
    case Calling =>
    case CallRelock =>
    case LoopEnd =>
  }

  lemma ExitStages(s: State)
    requires InExitPart(s.listener)
    ensures StageOf(ExitNext(s).listener) == StageOf(s.listener)
  {
    match s.listener
    case ExitLock =>
    case SetShutdown =>
    case FinalLock =>
    case FinalSession =>
  }

  lemma FinalStages(s: State)
    requires InFinalPart(s.listener) && Owners(s)
    ensures StageOf(FinalNext(s).listener) == StageOf(s.listener)
  {
    match s.listener
    case ClearThread =>
    case FinalWakeup =>
    case FinalUnlock =>
  }

  lemma WakingKeepsStage(s: State)
    requires Owners(s)
    ensures StageOf(Wakeup(s).listener) == StageOf(s.listener)
  {
  }

  /** No step both clears the active flag and moves the listener on. */
  lemma FlagOrStage(s: State, e: Event)
    requires Inv(s) && Enabled(s, e)
    ensures s.active && !Step(s, e).active ==> StageOf(Step(s, e).listener) == StageOf(s.listener)
    ensures !s.active ==> !Step(s, e).active
  {
    if e.DestroyerStep? && s.destroyer.ClearActive? {
      assert Step(s, e).listener == s.listener;
    }
  }

  /** Flag and callback are cleared within one session section. */
  predicate CallbackIffActive(s: State) {
    s.hasCallback <==> s.active || s.destroyer.ClearCallback?
  }

  /** What the callback depends on is the same before and after. */
  predicate SameCallback(s: State, t: State) {
    s.active == t.active && s.hasCallback == t.hasCallback && s.destroyer.ClearCallback? == t.destroyer.ClearCallback?
  }

  lemma WakeupSameCallback(s: State)
    requires Owners(s)
    ensures SameCallback(s, Wakeup(s))
  {
  }

  lemma FinalSameCallback(s: State)
    requires InFinalPart(s.listener) && Owners(s)
    ensures SameCallback(s, FinalNext(s))
  {
    match s.listener
    case ClearThread =>
    case FinalWakeup => WakeupSameCallback(s);
    case FinalUnlock =>
  }

  lemma ListenerSameCallback(s: State, error: bool)
    requires Owners(s) && Enabled(s, ListenerStep(error))
    ensures SameCallback(s, Step(s, ListenerStep(error)))
  {
    if InFinalPart(s.listener) {
      FinalSameCallback(s);
    }
  }

  lemma StopKeepsCallbackIffActive(s: State)
    requires InStopPart(s.destroyer) && CallbackIffActive(s) && (s.active <==> !StopRequested(s.destroyer))
    ensures CallbackIffActive(StopNext(s))
  {
  }

  lemma GoingOnSameCallback(s: State)
    requires Inv(s) && Enabled(s, DestroyerStep) && !InStopPart(s.destroyer)
    ensures SameCallback(s, Step(s, DestroyerStep))
  {
  }

  lemma StepKeepsCallbackIffActive(s: State, e: Event)
    requires Inv(s) && Enabled(s, e) && CallbackIffActive(s)
    ensures CallbackIffActive(Step(s, e))
  {
    match e
    case ListenerStep(error) => ListenerSameCallback(s, error);
    case DestroyerStep =>
      if InStopPart(s.destroyer) {
        StopKeepsCallbackIffActive(s);
      } else {
        GoingOnSameCallback(s);
      }
    case Deliver => WakeupSameCallback(s);
  }

  lemma {:induction false} RunKeepsCallbackIffActive(s: State, events: seq<Event>)
    requires Inv(s) && CallbackIffActive(s) && Legal(s, events)
    ensures CallbackIffActive(Run(s, events))
    decreases |events|
  {
    if events == [] {
    } else {
      StepKeepsInv(s, events[0]);
      StepKeepsCallbackIffActive(s, events[0]);
      RunKeepsCallbackIffActive(Step(s, events[0]), events[1..]);
    }
  }

  /** On every branch, the one that does not wait included: once the destroyer goes on to tear down,
      the listener has left its loop, so no callback is under way and none will be started. */
  lemma NoCallbackOnceTearingDown(events: seq<Event>)
    requires Legal(START, events)
    ensures var s := Run(START, events);
            InTeardownPart(s.destroyer) ==> ShutdownAnnounced(s.listener) && StageOf(s.listener) == Ended
    ensures CallbackIffActive(Run(START, events))
  {
    RunKeepsInv(START, events);
    RunKeepsCallbackIffActive(START, events);
  }

  /** Without the sleep it depends on one branch. When the destroyer, holding the buffer mutex, is
      about to go on without sleeping, the listener has finished exactly if not both THREAD and
      SHUTDOWN are set. */
  lemma FinishedUnlessShutdownBranch(events: seq<Event>)
    requires Legal(START, events)
    ensures var s := Run(START, events);
            s.destroyer.BufferUnlock? ==> (s.listener.Exited? <==> !(s.flags.thread && s.flags.shutdown))
    ensures var s := Run(START, events);
            s.destroyer.TestShutdown? && s.flags.shutdown ==> s.flags.thread && s.listener.FinalLock?
  {
    RunKeepsInv(START, events);
  }

  lemma RunCons(s: State, e: Event, rest: seq<Event>)
    requires Enabled(s, e) && Legal(Step(s, e), rest)
    ensures Legal(s, [e] + rest) && Run(s, [e] + rest) == Run(Step(s, e), rest)
  {
    assert ([e] + rest)[1..] == rest;
  }

  lemma {:induction false} RunAppend(s: State, a: seq<Event>, b: seq<Event>)
    requires Legal(s, a) && Legal(Run(s, a), b)
    ensures Legal(s, a + b) && Run(s, a + b) == Run(Run(s, a), b)
    decreases |a|
  {
    if a == [] {
      assert a + b == b;
    } else {
      RunAppend(Step(s, a[0]), a[1..], b);
      RunCons(s, a[0], a[1..] + b);
      assert a + b == [a[0]] + (a[1..] + b);
    }
  }

  /** In that branch the condition is not just a matter of proof: the destroyer alone can go on and
      free everything while the listener still waits for the buffer mutex. */
  lemma {:induction false} ShutdownBranchCanOvertake(s: State) returns (rest: seq<Event>)
    requires Inv(s) && s.listener.FinalLock?
    requires s.destroyer.TestShutdown? || InTeardownPart(s.destroyer)
    ensures Legal(s, rest) && Run(s, rest).freed && Run(s, rest).listener.FinalLock?
    decreases DestroyerRemaining(s.destroyer)
  {
    if s.destroyer.Done? {
      return [];
    }
    assert s.buffer.Some? ==> s.buffer.value == Listener || s.buffer.value == Destroyer;
    assert s.session.Some? ==> s.session.value == Listener || s.session.value == Destroyer;
    StepKeepsInv(s, DestroyerStep);
    var more := ShutdownBranchCanOvertake(Step(s, DestroyerStep));
    RunCons(s, DestroyerStep, more);
    rest := [DestroyerStep] + more;
  }

  lemma Twice(s: State, e: Event) returns (rest: seq<Event>)
    requires Enabled(s, e) && Enabled(Step(s, e), e)
    ensures Legal(s, rest) && Run(s, rest) == Step(Step(s, e), e)
  {
    RunCons(Step(s, e), e, []);
    RunCons(s, e, [e] + []);
    rest := [e] + ([e] + []);
  }

  lemma DestroyerStops() returns (rest: seq<Event>)
    ensures Legal(START, rest)
    ensures Run(START, rest) == START.(registered := false, flags := Flags(false, true, true, false), active := false,
                                       hasCallback := false, destroyer := BufferLock)
  {
    var first := Twice(START, DestroyerStep);
    var second := Twice(Run(START, first), DestroyerStep);
    RunAppend(START, first, second);
    rest := first + second;
  }

  lemma ListenerLeaves(s: State) returns (rest: seq<Event>)
    requires s.listener.LoopTop? && s.buffer.None? && s.session.None? && !s.active
    ensures Legal(s, rest)
    ensures Run(s, rest) == s.(flags := s.flags.(shutdown := true), listener := FinalLock)
  {
    var first := Twice(s, ListenerStep(false));
    assert Run(s, first) == s.(listener := ExitLock);
    var second := ListenerAnnounces(Run(s, first));
    RunAppend(s, first, second);
    rest := first + second;
  }

  lemma ListenerAnnounces(s: State) returns (rest: seq<Event>)
    requires s.listener.ExitLock? && s.session.None?
    ensures Legal(s, rest)
    ensures Run(s, rest) == s.(flags := s.flags.(shutdown := true), listener := FinalLock)
  {
    rest := Twice(s, ListenerStep(false));
  }

  lemma DestroyerWakes(s: State) returns (rest: seq<Event>)
    requires s.destroyer.BufferLock? && s.buffer.None? && s.session.None? && s.flags.thread && s.sleepers == {}
    ensures Legal(s, rest) && Run(s, rest) == s.(buffer := Some(Destroyer), destroyer := TestShutdown)
  {
    var first := Twice(s, DestroyerStep);
    var second := Twice(Run(s, first), DestroyerStep);
    RunAppend(s, first, second);
    rest := first + second;
  }

  /** A complete schedule in which the structures are freed before the listener's last access. */
  lemma FreedTooEarly() returns (events: seq<Event>)
    ensures Legal(START, events) && Run(START, events).freed && !Run(START, events).listener.Exited?
  {
    var a := DestroyerStops();
    var b := ListenerLeaves(Run(START, a));
    RunAppend(START, a, b);
    var c := DestroyerWakes(Run(START, a + b));
    RunAppend(START, a + b, c);
    RunKeepsInv(START, a + b + c);
    var d := ShutdownBranchCanOvertake(Run(START, a + b + c));
    RunAppend(START, a + b + c, d);
    events := a + b + c + d;
  }

  // ----- Liveness

  lemma SleepShortens(s: State)
    requires Inv(s) && Enabled(s, ListenerStep(false)) && !s.active && InSleepPart(s.listener)
    ensures Remaining(SleepNext(s)) < Remaining(s)
  {
  }

  lemma ReadShortens(s: State, error: bool)
    requires Inv(s) && Enabled(s, ListenerStep(error)) && InReadPart(s.listener)
    ensures Remaining(ReadNext(s, error)) < Remaining(s)
  {
  }

  lemma CallShortens(s: State)
    requires Inv(s) && Enabled(s, ListenerStep(false)) && !s.active && InCallPart(s.listener)
    ensures Remaining(CallNext(s)) < Remaining(s)
  {
  }

  lemma ExitShortens(s: State)
    requires Inv(s) && Enabled(s, ListenerStep(false)) && InExitPart(s.listener)
    ensures Remaining(ExitNext(s)) < Remaining(s)
  {
    match s.listener
    case ExitLock =>
    case SetShutdown =>
    case FinalLock =>
    case FinalSession =>
  }

  lemma FinalShortens(s: State)
    requires Inv(s) && Enabled(s, ListenerStep(false)) && InFinalPart(s.listener)
    ensures Remaining(FinalNext(s)) < Remaining(s)
  {
    match s.listener
    case ClearThread =>
    case FinalWakeup =>
    case FinalUnlock =>
  }

  lemma StopShortens(s: State)
    requires Inv(s) && Enabled(s, DestroyerStep) && InStopPart(s.destroyer)
    ensures Remaining(StopNext(s)) < Remaining(s)
  {
  }

  lemma WaitShortens(s: State)
    requires Inv(s) && Enabled(s, DestroyerStep) && InWaitPart(s.destroyer)
    ensures Remaining(WaitNext(s)) < Remaining(s)
  {
  }

  lemma TeardownShortens(s: State)
    requires Inv(s) && Enabled(s, DestroyerStep) && InTeardownPart(s.destroyer)
    ensures Remaining(TeardownNext(s)) < Remaining(s)
  {
  }

  lemma StepShortens(s: State, e: Event)
    requires Inv(s) && Enabled(s, e) && !s.active
    ensures Remaining(Step(s, e)) < Remaining(s)
  {
    match e {
      case ListenerStep(error) =>
        if InExitPart(s.listener) {
          ExitShortens(s);
        } else if InFinalPart(s.listener) {
          FinalShortens(s);
        } else if InSleepPart(s.listener) {
          SleepShortens(s);
        } else if InReadPart(s.listener) {
          ReadShortens(s, error);
        } else {
          CallShortens(s);
        }
      case DestroyerStep =>
        if InStopPart(s.destroyer) {
          StopShortens(s);
        } else if InWaitPart(s.destroyer) {
          WaitShortens(s);
        } else {
          TeardownShortens(s);
        }
    }
  }

  lemma AlwaysSomebodyGoesOn(s: State)
    requires Inv(s) && !s.active && !(s.listener.Exited? && s.destroyer.Done?)
    ensures Enabled(s, ListenerStep(false)) || Enabled(s, DestroyerStep)
  {
    assert s.buffer.Some? ==> s.buffer.value == Listener || s.buffer.value == Destroyer;
    assert s.session.Some? ==> s.session.value == Listener || s.session.value == Destroyer;
  }

  lemma {:induction false} ShutdownIsShort(s: State, events: seq<Event>)
    requires Inv(s) && Legal(s, events) && !s.active
    ensures |events| <= Remaining(s) && !Run(s, events).active
    decreases |events|
  {
    if events == [] {
    } else {
      StepShortens(s, events[0]);
      StepKeepsInv(s, events[0]);
      ShutdownIsShort(Step(s, events[0]), events[1..]);
    }
  }

  /** Once `active` is clear only boundedly many steps remain, whatever the scheduling, and a run
      that cannot be continued has ended the listener and freed it. */
  lemma DestroyFinishes(before: seq<Event>, after: seq<Event>)
    requires Legal(START, before) && !Run(START, before).active && Legal(Run(START, before), after)
    ensures |after| <= Remaining(Run(START, before))
    ensures var s := Run(Run(START, before), after);
            !Enabled(s, ListenerStep(false)) && !Enabled(s, DestroyerStep) ==> s.freed && s.listener.Exited?
  {
    RunKeepsInv(START, before);
    ShutdownIsShort(Run(START, before), after);
    RunKeepsInv(Run(START, before), after);
    var s := Run(Run(START, before), after);
    if !(s.listener.Exited? && s.destroyer.Done?) {
      AlwaysSomebodyGoesOn(s);
    }
  }
}
