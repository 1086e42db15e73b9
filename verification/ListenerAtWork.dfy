/** kmod/framework_evdev_thread.c: what the listener does when nobody destroys it - a delivered input
    reaches the callback, and afterwards the listener sleeps as before. */
module ListenerAtWork {
  import opened MachineIntegers
  import opened ListenerShutdown
  import opened ListenerShutdownProofs

  function Repeat(e: Event, n: nat): seq<Event> {
    if n == 0 then [] else [e] + Repeat(e, n - 1)
  }

  const GO: Event := ListenerStep(false)

  lemma RepeatCons(s: State, e: Event, n: nat)
    requires Enabled(s, e) && Legal(Step(s, e), Repeat(e, n))
    ensures Legal(s, Repeat(e, n + 1)) && Run(s, Repeat(e, n + 1)) == Run(Step(s, e), Repeat(e, n))
  {
    RunCons(s, e, Repeat(e, n));
  }

  // ----- Waking up, reading and calling

  /** Asleep and registered, with nothing else going on. */
  predicate AtRest(s: State) {
    Inv(s) && CallbackIffActive(s) && s.registered && s.blocked && s.listener.Asleep?
  }

  lemma NobodyElse(s: State)
    requires AtRest(s)
    ensures s.active && s.hasCallback && s.buffer.None? && s.session.None? && s.sleepers == {Listener}
  {
    OneOfTwo(s.buffer);
    OneOfTwo(s.session);
    assert forall t <- s.sleepers :: t == Listener || t == Destroyer;
  }

  lemma OneOfTwo(owner: Option<Tid>)
    ensures owner == None || owner == Some(Listener) || owner == Some(Destroyer)
  {
    match owner
    case None =>
    case Some(t) => assert t == Listener || t == Destroyer;
  }

  /** Input wakes a blocked client, once. */
  lemma DeliverWakes(s: State)
    requires s.registered && s.blocked && s.listener.Asleep? && s.sleepers == {Listener}
    ensures Enabled(s, Deliver) && Step(s, Deliver) == s.(blocked := false, sleepers := {}, listener := Woken)
  {
  }

  lemma DeliverOnce(s: State)
    requires s.registered && !s.blocked
    ensures Step(s, Deliver) == s
  {
  }

  lemma Read(s: State)
    requires s.listener.Woken? && s.buffer.None? && s.session.None?
    ensures Legal(s, Repeat(GO, 3))
    ensures Run(s, Repeat(GO, 3)) == s.(buffer := Some(Listener), session := Some(Listener), listener := CbRead)
  {
    var s1 := s.(buffer := Some(Listener), listener := ReadKey);
    var s2 := s.(buffer := Some(Listener), listener := CbLock);
    assert Step(s, GO) == s1 && Step(s1, GO) == s2;
    RepeatCons(s2, GO, 0);
    RepeatCons(s1, GO, 1);
    RepeatCons(s, GO, 2);
  }

  lemma Call(s: State)
    requires s.listener.CbRead? && s.hasCallback
    ensures Legal(s, Repeat(GO, 2))
    ensures Run(s, Repeat(GO, 2)) == s.(buffer := None, session := None, listener := Calling)
  {
    var s1 := s.(session := None, listener := CallUnlock);
    assert Step(s, GO) == s1;
    RepeatCons(s1, GO, 0);
    RepeatCons(s, GO, 1);
  }

  /** The callback has returned: the loop condition, and back to the top. */
  lemma Return(s: State)
    requires s.listener.Calling? && s.buffer.None? && s.active
    ensures Legal(s, Repeat(GO, 3))
    ensures Run(s, Repeat(GO, 3)) == s.(listener := LoopTop)
  {
    var s1 := s.(listener := CallRelock);
    var s2 := s.(buffer := Some(Listener), listener := LoopEnd);
    assert Step(s, GO) == s1 && Step(s1, GO) == s2;
    RepeatCons(s2, GO, 0);
    RepeatCons(s1, GO, 1);
    RepeatCons(s, GO, 2);
  }

  lemma Sleep(s: State)
    requires s.listener.LoopTop? && s.buffer.None? && s.active
    ensures Legal(s, Repeat(GO, 3))
    ensures Run(s, Repeat(GO, 3)) == s.(blocked := true, sleepers := s.sleepers + {Listener}, listener := Asleep)
  {
    var s1 := s.(buffer := Some(Listener), listener := CheckActive);
    var s2 := s.(buffer := Some(Listener), listener := Block);
    assert Step(s, GO) == s1 && Step(s1, GO) == s2;
    RepeatCons(s2, GO, 0);
    RepeatCons(s1, GO, 1);
    RepeatCons(s, GO, 2);
  }

  // ----- One input

  function UpToCall(): seq<Event> {
    [Deliver] + (Repeat(GO, 3) + Repeat(GO, 2))
  }

  /** A delivered input reaches the callback: five steps of the listener after it. */
  lemma InputReachesCallback(s: State)
    requires AtRest(s)
    ensures Legal(s, UpToCall())
    ensures Run(s, UpToCall()) == s.(blocked := false, sleepers := {}, listener := Calling)
  {
    NobodyElse(s);
    DeliverWakes(s);
    var woken := s.(blocked := false, sleepers := {}, listener := Woken);
    Read(woken);
    Call(woken.(buffer := Some(Listener), session := Some(Listener), listener := CbRead));
    RunAppend(woken, Repeat(GO, 3), Repeat(GO, 2));
    RunCons(s, Deliver, Repeat(GO, 3) + Repeat(GO, 2));
  }

  /** And when the callback has returned, the listener comes to sleep again just as before. */
  lemma ListenerComesBack(s: State)
    requires AtRest(s)
    ensures var turn := UpToCall() + (Repeat(GO, 3) + Repeat(GO, 3));
            Legal(s, turn) && Run(s, turn) == s
  {
    NobodyElse(s);
    InputReachesCallback(s);
    var calling := s.(blocked := false, sleepers := {}, listener := Calling);
    Return(calling);
    Sleep(calling.(listener := LoopTop));
    RunAppend(calling, Repeat(GO, 3), Repeat(GO, 3));
    RunAppend(s, UpToCall(), Repeat(GO, 3) + Repeat(GO, 3));
    assert {} + {Listener} == {Listener};
  }

  // ----- When there is nothing to call

  /** A sleep that failed is not reported: from reading the key straight to the loop condition. */
  lemma FailedSleepIsNotReported(s: State)
    requires s.listener.ReadKey?
    ensures Enabled(s, ListenerStep(true)) && Step(s, ListenerStep(true)) == s.(listener := LoopEnd)
  {
  }

  /** Nor is anything once the callback is gone. */
  lemma NothingToCall(s: State)
    requires s.listener.Woken? && s.buffer.None? && s.session.None? && !s.hasCallback
    ensures Legal(s, Repeat(GO, 3) + Repeat(GO, 1))
    ensures Run(s, Repeat(GO, 3) + Repeat(GO, 1)) == s.(buffer := Some(Listener), listener := LoopEnd)
  {
    Read(s);
    var read := s.(buffer := Some(Listener), session := Some(Listener), listener := CbRead);
    RepeatCons(read, GO, 0);
    RunAppend(s, Repeat(GO, 3), Repeat(GO, 1));
  }
}
