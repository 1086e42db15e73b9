/** kmod/framework_evdev_thread.c: how destroying an input listener ends its thread. The listener
    sleeps on the evdev client with the client's buffer mutex; flags and callback are guarded by a
    second mutex, the session lock. Until the client is unregistered, evdev wakes the listener for
    input. The listener is taken from the point where it has set its THREAD flag. */
module ListenerShutdown {
  import opened MachineIntegers

  datatype Tid = Listener | Destroyer

  /** The bits of `flags`. */
  datatype Flags = Flags(clientReg: bool, kqueue: bool, thread: bool, shutdown: bool)

  /** Where the listener is: (B) it owns the buffer mutex, (S) the session lock. */
  datatype ListenerPc =
    | LoopTop                 // about to lock the buffer
    | CheckActive             // (B) leaves if `active` is clear
    | Block                   // (B) sets ec_blocked and calls msleep
    | Asleep
    | Woken                   // has to lock the buffer again
    | ReadKey                 // (B) reads the key code, resets the buffer
    | CbLock                  // (B) about to lock the session
    | CbRead                  // (B,S) copies `cbfunc`
    | CallUnlock              // (B) gives the buffer up for the call
    | Calling                 // runs the callback
    | CallRelock              // about to lock the buffer
    | LoopEnd                 // (B) copies `active`
    | ExitLock                // about to lock the session
    | SetShutdown             // (S)
    | FinalLock               // about to lock the buffer
    | FinalSession            // (B) about to lock the session
    | ClearThread             // (B,S)
    | FinalWakeup             // (B)
    | FinalUnlock             // (B)
    | Exited

  /** Where the destroyer is, likewise. */
  datatype DestroyerPc =
    | Unregister              // takes the client off the device
    | StopLock                // about to lock the session
    | ClearActive             // (S)
    | ClearCallback           // (S)
    | BufferLock              // about to lock the buffer
    | FlagsLock               // (B) about to lock the session
    | ReadFlags               // (B,S)
    | WakeListener            // (B) THREAD was set
    | TestShutdown            // (B) sleeps unless SHUTDOWN is set
    | WaitAsleep
    | WaitWoken               // has to lock the buffer again
    | BufferUnlock            // (B)
    | KqueueLock              // about to lock the buffer
    | KqueueClear             // (B)
    | KqueueFlagLock          // about to lock the session
    | KqueueFlag              // (S)
    | Free
    | Done

  datatype State = State(
    active: bool, hasCallback: bool, registered: bool, blocked: bool, flags: Flags,
    buffer: Option<Tid>, session: Option<Tid>, sleepers: set<Tid>,
    listener: ListenerPc, destroyer: DestroyerPc,
    waited: bool,             // the destroyer has taken its msleep
    freed: bool)

  /** `error`: the result of the listener's msleep is nonzero, where that is looked at. */
  datatype Event = ListenerStep(error: bool) | DestroyerStep | Deliver

  predicate ListenerHoldsBuffer(pc: ListenerPc) {
    pc.CheckActive? || pc.Block? || pc.ReadKey? || pc.CbLock? || pc.CbRead? || pc.CallUnlock? || pc.LoopEnd? ||
    pc.FinalSession? || pc.ClearThread? || pc.FinalWakeup? || pc.FinalUnlock?
  }

  predicate ListenerHoldsSession(pc: ListenerPc) {
    pc.CbRead? || pc.SetShutdown? || pc.ClearThread?
  }

  predicate ListenerWantsBuffer(pc: ListenerPc) {
    pc.LoopTop? || pc.Woken? || pc.CallRelock? || pc.FinalLock?
  }

  predicate ListenerWantsSession(pc: ListenerPc) {
    pc.CbLock? || pc.ExitLock? || pc.FinalSession?
  }

  predicate DestroyerHoldsBuffer(pc: DestroyerPc) {
    pc.FlagsLock? || pc.ReadFlags? || pc.WakeListener? || pc.TestShutdown? || pc.BufferUnlock? || pc.KqueueClear?
  }

  predicate DestroyerHoldsSession(pc: DestroyerPc) {
    pc.ClearActive? || pc.ClearCallback? || pc.ReadFlags? || pc.KqueueFlag?
  }

  predicate DestroyerWantsBuffer(pc: DestroyerPc) {
    pc.BufferLock? || pc.WaitWoken? || pc.KqueueLock?
  }

  predicate DestroyerWantsSession(pc: DestroyerPc) {
    pc.StopLock? || pc.FlagsLock? || pc.KqueueFlagLock?
  }

  predicate Enabled(s: State, e: Event) {
    match e
    case ListenerStep(_) =>
      && !s.listener.Asleep? && !s.listener.Exited?
      && (ListenerWantsBuffer(s.listener) ==> s.buffer.None?)
      && (ListenerWantsSession(s.listener) ==> s.session.None?)
    case DestroyerStep =>
      && !s.destroyer.WaitAsleep? && !s.destroyer.Done?
      && (DestroyerWantsBuffer(s.destroyer) ==> s.buffer.None?)
      && (DestroyerWantsSession(s.destroyer) ==> s.session.None?)
    case Deliver => s.registered
  }

  function Wakeup(s: State): State {
    s.(sleepers := {},
       listener := if Listener in s.sleepers then Woken else s.listener,
       destroyer := if Destroyer in s.sleepers then WaitWoken else s.destroyer)
  }

  /** First third of the loop: up to msleep and getting the buffer back. */
  predicate InSleepPart(pc: ListenerPc) {
    pc.LoopTop? || pc.CheckActive? || pc.Block? || pc.Asleep? || pc.Woken?
  }

  /** Second third: what there is to report and to whom. */
  predicate InReadPart(pc: ListenerPc) {
    pc.ReadKey? || pc.CbLock? || pc.CbRead?
  }

  /** Last third: the callback and the loop condition. */
  predicate InCallPart(pc: ListenerPc) {
    pc.CallUnlock? || pc.Calling? || pc.CallRelock? || pc.LoopEnd?
  }

  function SleepNext(s: State): (next: State)
    requires InSleepPart(s.listener) && !s.listener.Asleep?
    ensures next.active == s.active && next.hasCallback == s.hasCallback && next.destroyer == s.destroyer && next.flags == s.flags
  {
    match s.listener
    case LoopTop => s.(buffer := Some(Listener), listener := CheckActive)
    case CheckActive => if s.active then s.(listener := Block) else s.(buffer := None, listener := ExitLock)
    case Block =>
      s.(blocked := true, buffer := None, sleepers := s.sleepers + {Listener}, listener := Asleep)
    case Woken => s.(buffer := Some(Listener), listener := ReadKey)
  }

  function ReadNext(s: State, error: bool): (next: State)
    requires InReadPart(s.listener)
    ensures next.active == s.active && next.hasCallback == s.hasCallback && next.destroyer == s.destroyer && next.flags == s.flags
  {
    match s.listener
    case ReadKey => s.(listener := if error then LoopEnd else CbLock)
    case CbLock => s.(session := Some(Listener), listener := CbRead)
    case CbRead => s.(session := None, listener := if s.hasCallback then CallUnlock else LoopEnd)
  }

  function CallNext(s: State): (next: State)
    requires InCallPart(s.listener)
    ensures next.active == s.active && next.hasCallback == s.hasCallback && next.destroyer == s.destroyer && next.flags == s.flags
  {
    match s.listener
    case CallUnlock => s.(buffer := None, listener := Calling)
    case Calling => s.(listener := CallRelock)
    case CallRelock => s.(buffer := Some(Listener), listener := LoopEnd)
    case LoopEnd => s.(buffer := None, listener := if s.active then LoopTop else ExitLock)
  }

  /** After the loop: announcing the shutdown. */
  predicate InExitPart(pc: ListenerPc) {
    pc.ExitLock? || pc.SetShutdown? || pc.FinalLock? || pc.FinalSession?
  }

  /** The very end: THREAD cleared, the destroyer woken. */
  predicate InFinalPart(pc: ListenerPc) {
    pc.ClearThread? || pc.FinalWakeup? || pc.FinalUnlock?
  }

  function ExitNext(s: State): (next: State)
    requires InExitPart(s.listener)
    ensures next.active == s.active && next.hasCallback == s.hasCallback && next.destroyer == s.destroyer
    ensures next.flags.clientReg == s.flags.clientReg && next.flags.kqueue == s.flags.kqueue
  {
    match s.listener
    case ExitLock => s.(session := Some(Listener), listener := SetShutdown)
    case SetShutdown => s.(flags := s.flags.(shutdown := true), session := None, listener := FinalLock)
    case FinalLock => s.(buffer := Some(Listener), listener := FinalSession)
    case FinalSession => s.(session := Some(Listener), listener := ClearThread)
  }

  function FinalNext(s: State): (next: State)
    requires InFinalPart(s.listener)
    ensures next.active == s.active && next.hasCallback == s.hasCallback
  {
    match s.listener
    case ClearThread => s.(flags := s.flags.(thread := false), session := None, listener := FinalWakeup)
    case FinalWakeup => Wakeup(s.(listener := FinalUnlock))
    case FinalUnlock => s.(buffer := None, listener := Exited)
  }

  /** Clearing `active` and the callback. */
  predicate InStopPart(pc: DestroyerPc) {
    pc.Unregister? || pc.StopLock? || pc.ClearActive? || pc.ClearCallback? || pc.BufferLock? || pc.FlagsLock?
  }

  /** Waking the listener and waiting for it. */
  predicate InWaitPart(pc: DestroyerPc) {
    pc.ReadFlags? || pc.WakeListener? || pc.TestShutdown? || pc.WaitAsleep? || pc.WaitWoken?
  }

  /** Clearing the kqueue and freeing everything. */
  predicate InTeardownPart(pc: DestroyerPc) {
    pc.BufferUnlock? || pc.KqueueLock? || pc.KqueueClear? || pc.KqueueFlagLock? || pc.KqueueFlag? || pc.Free? || pc.Done?
  }

  function StopNext(s: State): (next: State)
    requires InStopPart(s.destroyer)
    ensures next.active ==> s.active
  {
    match s.destroyer
    case Unregister => s.(registered := false, flags := s.flags.(clientReg := false), destroyer := StopLock)
    case StopLock => s.(session := Some(Destroyer), destroyer := ClearActive)
    case ClearActive => s.(active := false, destroyer := ClearCallback)
    case ClearCallback => s.(hasCallback := false, session := None, destroyer := BufferLock)
    case BufferLock => s.(buffer := Some(Destroyer), destroyer := FlagsLock)
    case FlagsLock => s.(session := Some(Destroyer), destroyer := ReadFlags)
  }

  function WaitNext(s: State): (next: State)
    requires InWaitPart(s.destroyer) && !s.destroyer.WaitAsleep?
    ensures next.active == s.active
  {
    match s.destroyer
    case ReadFlags => s.(session := None, destroyer := if s.flags.thread then WakeListener else BufferUnlock)
    case WakeListener => Wakeup(s.(destroyer := TestShutdown))
    case TestShutdown =>
      if s.flags.shutdown then s.(destroyer := BufferUnlock)
      else s.(buffer := None, sleepers := s.sleepers + {Destroyer}, waited := true, destroyer := WaitAsleep)
    case WaitWoken => s.(buffer := Some(Destroyer), destroyer := BufferUnlock)
  }

  function TeardownNext(s: State): (next: State)
    requires InTeardownPart(s.destroyer) && !s.destroyer.Done?
    ensures next.active == s.active
  {
    match s.destroyer
    case BufferUnlock => s.(buffer := None, destroyer := KqueueLock)
    case KqueueLock => s.(buffer := Some(Destroyer), destroyer := KqueueClear)
    case KqueueClear => s.(buffer := None, destroyer := KqueueFlagLock)
    case KqueueFlagLock => s.(session := Some(Destroyer), destroyer := KqueueFlag)
    case KqueueFlag => s.(flags := s.flags.(kqueue := false), session := None, destroyer := Free)
    case Free => s.(freed := true, destroyer := Done)
  }

  function Step(s: State, e: Event): (next: State)
    requires Enabled(s, e)
    ensures next.active ==> s.active
  {
    match e
    case ListenerStep(error) =>
      if InSleepPart(s.listener) then SleepNext(s)
      else if InReadPart(s.listener) then ReadNext(s, error)
      else if InCallPart(s.listener) then CallNext(s)
      else if InExitPart(s.listener) then ExitNext(s)
      else FinalNext(s)
    case DestroyerStep =>
      if InStopPart(s.destroyer) then StopNext(s)
      else if InWaitPart(s.destroyer) then WaitNext(s)
      else TeardownNext(s)
    case Deliver => if s.blocked then Wakeup(s.(blocked := false)) else s
  }

  const START: State :=
    State(true, true, true, true, Flags(true, true, true, false), None, None, {}, LoopTop, Unregister, false, false)

  predicate Legal(s: State, events: seq<Event>)
    decreases |events|
  {
    events == [] || (Enabled(s, events[0]) && Legal(Step(s, events[0]), events[1..]))
  }

  function Run(s: State, events: seq<Event>): State
    requires Legal(s, events)
    decreases |events|
  {
    if events == [] then s else Run(Step(s, events[0]), events[1..])
  }

  // ----- What every interleaving keeps

  predicate ListenerIsLeaving(pc: ListenerPc) {
    pc.ExitLock? || pc.SetShutdown? || ShutdownAnnounced(pc)
  }

  predicate ShutdownAnnounced(pc: ListenerPc) {
    pc.FinalLock? || pc.FinalSession? || pc.ClearThread? || ThreadCleared(pc)
  }

  predicate ThreadCleared(pc: ListenerPc) {
    pc.FinalWakeup? || WakeupSent(pc)
  }

  predicate WakeupSent(pc: ListenerPc) {
    pc.FinalUnlock? || pc.Exited?
  }

  predicate StopRequested(pc: DestroyerPc) {
    !pc.Unregister? && !pc.StopLock? && !pc.ClearActive?
  }

  /** The destroyer has sent its wakeup and has not given up waiting for an answer. */
  predicate Waking(pc: DestroyerPc) {
    pc.TestShutdown? || pc.WaitAsleep? || pc.WaitWoken?
  }

  /** What every interleaving keeps. */
  predicate Inv(s: State) {
    Owners(s) && Agreement(s)
  }

  predicate Owners(s: State) {
    // each mutex is owned by whoever is in one of its sections, the channel holds whoever sleeps
    && (s.buffer == Some(Listener) <==> ListenerHoldsBuffer(s.listener))
    && (s.buffer == Some(Destroyer) <==> DestroyerHoldsBuffer(s.destroyer))
    && (s.session == Some(Listener) <==> ListenerHoldsSession(s.listener))
    && (s.session == Some(Destroyer) <==> DestroyerHoldsSession(s.destroyer))
    && (Listener in s.sleepers <==> s.listener.Asleep?)
    && (Destroyer in s.sleepers <==> s.destroyer.WaitAsleep?)
  }

  predicate Agreement(s: State) {
    // flags tell how far the two threads are
    && (s.active <==> !StopRequested(s.destroyer))
    && (s.registered <==> s.destroyer.Unregister?)
    && (s.flags.shutdown <==> ShutdownAnnounced(s.listener))
    && (s.flags.thread <==> !ThreadCleared(s.listener))
    && (ListenerIsLeaving(s.listener) ==> !s.active)
    // after the destroyer's wakeup the listener is neither asleep nor about to be
    && (Waking(s.destroyer) || InTeardownPart(s.destroyer) ==> !s.listener.Asleep? && !s.listener.Block?)
    // the destroyer waits only for a wakeup still to come, and goes on only after it
    && (s.waited ==> Waking(s.destroyer) || InTeardownPart(s.destroyer))
    && (s.destroyer.WakeListener? || s.destroyer.TestShutdown? ==> !s.waited && !ThreadCleared(s.listener))
    && (s.destroyer.WaitAsleep? ==> s.waited && !WakeupSent(s.listener))
    && (s.destroyer.WaitWoken? ==> s.waited && WakeupSent(s.listener))
    && (InTeardownPart(s.destroyer) ==> (s.waited ==> s.listener.Exited?) && ShutdownAnnounced(s.listener))
    && (s.freed <==> s.destroyer.Done?)
  }

  // ----- How many steps the two threads can still take once `active` is clear

  function ListenerRemaining(pc: ListenerPc): nat {
    match pc
    case Block => 21
    case Asleep => 20
    case Woken => 19
    case ReadKey => 18
    case CbLock => 17
    case CbRead => 16
    case CallUnlock => 15
    case Calling => 14
    case CallRelock => 13
    case LoopEnd => 12
    case LoopTop => 12
    case CheckActive => 11
    case ExitLock => 10
    case SetShutdown => 9
    case FinalLock => 8
    case FinalSession => 7
    case ClearThread => 6
    case FinalWakeup => 5
    case FinalUnlock => 3
    case Exited => 0
  }

  function DestroyerRemaining(pc: DestroyerPc): nat {
    match pc
    case Unregister => 17
    case StopLock => 16
    case ClearActive => 15
    case ClearCallback => 14
    case BufferLock => 13
    case FlagsLock => 12
    case ReadFlags => 11
    case WakeListener => 10
    case TestShutdown => 9
    case WaitAsleep => 8
    case WaitWoken => 7
    case BufferUnlock => 6
    case KqueueLock => 5
    case KqueueClear => 4
    case KqueueFlagLock => 3
    case KqueueFlag => 2
    case Free => 1
    case Done => 0
  }

  function Remaining(s: State): nat {
    ListenerRemaining(s.listener) + DestroyerRemaining(s.destroyer)
  }
}
