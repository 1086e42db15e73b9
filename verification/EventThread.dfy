/** kmod/framework_evdev_thread.c: the listener, its evdev client and their locks as mutable state.
    Each method is one step of one thread, and does what ListenerShutdown.dfy says of that step. */
module EventThread {
  import opened MachineIntegers
  import opened ListenerShutdown
  import opened ListenerShutdownProofs

  /** The listener and its evdev client as mutable state; one method call is one step of a thread. */
  class EventThread {
    var active: bool
    var hasCallback: bool
    var registered: bool
    var blocked: bool
    var flags: Flags
    var buffer: Option<Tid>
    var session: Option<Tid>
    var sleepers: set<Tid>
    var listener: ListenerPc
    var destroyer: DestroyerPc
    ghost var waited: bool
    var freed: bool

    ghost function View(): State
      reads this
    {
      State(active, hasCallback, registered, blocked, flags, buffer, session, sleepers, listener, destroyer, waited, freed)
    }

    constructor ()
      ensures View() == START
    {
      active, hasCallback, registered, blocked := true, true, true, true;
      flags, buffer, session, sleepers := Flags(true, true, true, false), None, None, {};
      listener, destroyer, waited, freed := LoopTop, Unregister, false, false;
    }

    method WakeupAll()
      modifies this`sleepers, this`listener, this`destroyer
      ensures View() == Wakeup(old(View()))
    {
      if Listener in sleepers {
        listener := Woken;
      }
      if Destroyer in sleepers {
        destroyer := WaitWoken;
      }
      sleepers := {};
    }

    method StepListenerSleep()
      requires Enabled(View(), ListenerStep(false)) && InSleepPart(listener)
      modifies this
      ensures View() == Step(old(View()), ListenerStep(false))
    {
      match listener
      case LoopTop =>
        buffer, listener := Some(Listener), CheckActive;
      case CheckActive =>
        if !active {
          buffer, listener := None, ExitLock;
        } else {
          listener := Block;
        }
      case Block =>
        blocked := true;
        buffer := None;
        sleepers := sleepers + {Listener};
        listener := Asleep;
      case Woken =>
        buffer, listener := Some(Listener), ReadKey;
    }

    method StepListenerRead(error: bool)
      requires Enabled(View(), ListenerStep(error)) && InReadPart(listener)
      modifies this
      ensures View() == Step(old(View()), ListenerStep(error))
    {
      match listener
      case ReadKey =>
        if error {
          listener := LoopEnd;
        } else {
          listener := CbLock;
        }
      case CbLock =>
        session, listener := Some(Listener), CbRead;
      case CbRead =>
        var localCallback := hasCallback;
        session := None;
        if localCallback {
          listener := CallUnlock;
        } else {
          listener := LoopEnd;
        }
    }

    method StepListenerCall()
      requires Enabled(View(), ListenerStep(false)) && InCallPart(listener)
      modifies this
      ensures View() == Step(old(View()), ListenerStep(false))
    {
      match listener
      case CallUnlock =>
        buffer, listener := None, Calling;
      case Calling =>
        listener := CallRelock;
      case CallRelock =>
        buffer, listener := Some(Listener), LoopEnd;
      case LoopEnd =>
        var localActive := active;
        buffer := None;
        if localActive {
          listener := LoopTop;
        } else {
          listener := ExitLock;
        }
    }

    method StepListenerExit()
      requires Enabled(View(), ListenerStep(false)) && InExitPart(listener)
      modifies this
      ensures View() == Step(old(View()), ListenerStep(false))
    {
      match listener
      case ExitLock =>
        session, listener := Some(Listener), SetShutdown;
      case SetShutdown =>
        flags := flags.(shutdown := true);
        session, listener := None, FinalLock;
      case FinalLock =>
        buffer, listener := Some(Listener), FinalSession;
      case FinalSession =>
        session, listener := Some(Listener), ClearThread;
    }

    method StepListenerFinal()
      requires Enabled(View(), ListenerStep(false)) && InFinalPart(listener)
      modifies this
      ensures View() == Step(old(View()), ListenerStep(false))
    {
      match listener
      case ClearThread =>
        flags := flags.(thread := false);
        session, listener := None, FinalWakeup;
      case FinalWakeup =>
        listener := FinalUnlock;
        WakeupAll();
      case FinalUnlock =>
        buffer, listener := None, Exited;
    }

    method StepDestroyerStop()
      requires Enabled(View(), DestroyerStep) && InStopPart(destroyer)
      modifies this
      ensures View() == Step(old(View()), DestroyerStep)
    {
      match destroyer
      case Unregister =>
        registered := false;
        flags := flags.(clientReg := false);
        destroyer := StopLock;
      case StopLock =>
        session, destroyer := Some(Destroyer), ClearActive;
      case ClearActive =>
        active := false;
        destroyer := ClearCallback;
      case ClearCallback =>
        hasCallback := false;
        session, destroyer := None, BufferLock;
      case BufferLock =>
        buffer, destroyer := Some(Destroyer), FlagsLock;
      case FlagsLock =>
        session, destroyer := Some(Destroyer), ReadFlags;
    }

    method StepDestroyerWait()
      requires Enabled(View(), DestroyerStep) && InWaitPart(destroyer)
      modifies this
      ensures View() == Step(old(View()), DestroyerStep)
    {
      match destroyer
      case ReadFlags =>
        session := None;
        if flags.thread {
          destroyer := WakeListener;
        } else {
          destroyer := BufferUnlock;
        }
      case WakeListener =>
        destroyer := TestShutdown;
        WakeupAll();
      case TestShutdown =>
        if !flags.shutdown {
          buffer := None;
          sleepers := sleepers + {Destroyer};
          waited := true;
          destroyer := WaitAsleep;
        } else {
          destroyer := BufferUnlock;
        }
      case WaitWoken =>
        buffer, destroyer := Some(Destroyer), BufferUnlock;
    }

    method StepDestroyerTeardown()
      requires Enabled(View(), DestroyerStep) && InTeardownPart(destroyer)
      modifies this
      ensures View() == Step(old(View()), DestroyerStep)
    {
      match destroyer
      case BufferUnlock =>
        buffer, destroyer := None, KqueueLock;
      case KqueueLock =>
        buffer, destroyer := Some(Destroyer), KqueueClear;
      case KqueueClear =>
        buffer, destroyer := None, KqueueFlagLock;
      case KqueueFlagLock =>
        session, destroyer := Some(Destroyer), KqueueFlag;
      case KqueueFlag =>
        flags := flags.(kqueue := false);
        session, destroyer := None, Free;
      case Free =>
        freed := true;
        destroyer := Done;
    }

    /** evdev reports input to a blocked client. */
    method DeliverInput()
      requires Enabled(View(), Deliver)
      modifies this
      ensures View() == Step(old(View()), Deliver)
    {
      if blocked {
        blocked := false;
        WakeupAll();
      }
    }

    method StepListener(error: bool)
      requires Enabled(View(), ListenerStep(error))
      modifies this
      ensures View() == Step(old(View()), ListenerStep(error))
    {
      if InSleepPart(listener) {
        StepListenerSleep();
      } else if InReadPart(listener) {
        StepListenerRead(error);
      } else if InCallPart(listener) {
        StepListenerCall();
      } else if InExitPart(listener) {
        StepListenerExit();
      } else {
        StepListenerFinal();
      }
    }

    method StepDestroyer()
      requires Enabled(View(), DestroyerStep)
      modifies this
      ensures View() == Step(old(View()), DestroyerStep)
    {
      if InStopPart(destroyer) {
        StepDestroyerStop();
      } else if InWaitPart(destroyer) {
        StepDestroyerWait();
      } else {
        StepDestroyerTeardown();
      }
    }

    /** Any interleaving, played on the object. */
    method Drive(events: seq<Event>)
      requires Legal(View(), events)
      modifies this
      ensures View() == Run(old(View()), events)
    {
      ghost var end := Run(View(), events);
      var i := 0;
      assert events[0..] == events;
      while i < |events|
        invariant 0 <= i <= |events|
        invariant Legal(View(), events[i..]) && Run(View(), events[i..]) == end
      {
        NextEvent(View(), events, i);
        Take(events[i]);
        i := i + 1;
      }
    }

    method Take(e: Event)
      requires Enabled(View(), e)
      modifies this
      ensures View() == Step(old(View()), e)
    {
      match e
      case ListenerStep(error) => StepListener(error);
      case DestroyerStep => StepDestroyer();
      case Deliver => DeliverInput();
    }
  }

  lemma NextEvent(s: State, events: seq<Event>, i: nat)
    requires i < |events| && Legal(s, events[i..])
    ensures Enabled(s, events[i]) && Legal(Step(s, events[i]), events[i + 1..])
    ensures Run(s, events[i..]) == Run(Step(s, events[i]), events[i + 1..])
  {
    assert events[i..][0] == events[i] && events[i..][1..] == events[i + 1..];
  }

  /** The life of a listener under any schedule, and what holds of its fields at any point: a
      sleeping destroyer is answered; if it slept, the listener has exited and both mutexes are free
      when the structures are freed; and on every branch no callback runs by then. */
  method PlayShutdown(events: seq<Event>) returns (t: EventThread)
    requires Legal(START, events)
    ensures t.View() == Run(START, events)
    ensures t.destroyer.WaitAsleep? ==> !WakeupSent(t.listener)
    ensures t.waited && (t.destroyer.Free? || t.freed) ==>
              t.listener.Exited? && t.buffer.None? && t.session.None? && t.sleepers == {}
    ensures InTeardownPart(t.destroyer) ==> StageOf(t.listener) == Ended
  {
    t := new EventThread();
    t.Drive(events);
    NoLostWakeup(events);
    WaitingMakesFreeSafe(events);
    NoCallbackOnceTearingDown(events);
  }
}
