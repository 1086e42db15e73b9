/** kmod/framework_evdev.c: taking the evdev connector down while its listeners may be handling
    input. The destroyer empties the list of bindings. It gives the connector's lock up while it
    waits for a listener to end, because that listener may itself be about to take the lock. */
module EvdevDrain {
  import opened MachineIntegers
  import LS = ListenerShutdown
  import L = ListenerShutdownProofs

  /** Where a binding's listener is, as far as the connector is concerned. */
  datatype Pc =
    | Absent                        // the binding has no listener
    | Ready                         // between two inputs
    | Testing                       // in `framework_evdev_oninput`, at its test of `active`
    | Locking                       // about to take the lock
    | Copying                       // (held) copies the callback
    | Calling(callback: bool)       // the lock given back; calls what it has copied, if anything
    | Ended                         // has left its loop for good

  /** `stopping`: the destroyer has taken the listener's own callback away and woken it. */
  datatype Listener = Listener(pc: Pc, stopping: bool)

  datatype Destroyer =
    | LockFirst
    | Clear                         // (held) clears callback and active flag
    | Pop                           // (held) takes the first binding off the list
    | Stop(b: nat)                  // unregisters the client, stops and wakes the listener
    | Await(b: nat)                 // until the listener has ended
    | Relock(b: nat)
    | FreeBinding(b: nat)           // (held)
    | DestroyMutex
    | Done

  datatype Owner = Nobody | TheDestroyer | TheListener(i: nat)

  datatype State = State(
    active: bool, hasCallback: bool, owner: Owner, bindings: seq<nat>, freed: seq<nat>,
    listeners: seq<Listener>, destroyer: Destroyer)

  /** Input wakes a listener; a listener or the destroyer goes on. */
  datatype Event = Input(i: nat) | ListenerStep(i: nat) | DestroyerStep

  predicate CanGoOn(s: State, l: Listener) {
    match l.pc
    case Absent => false
    case Ready => l.stopping
    case Locking => s.owner.Nobody?
    case Ended => false
    case _ => true
  }

  predicate Enabled(s: State, e: Event) {
    match e
    case Input(i) => i < |s.listeners| && s.listeners[i] == Listener(Ready, false)
    case ListenerStep(i) => i < |s.listeners| && CanGoOn(s, s.listeners[i])
    case DestroyerStep =>
      match s.destroyer
      case LockFirst => s.owner.Nobody?
      case Relock(_) => s.owner.Nobody?
      case Stop(b) => b < |s.listeners|
      case Await(b) => b < |s.listeners| && s.listeners[b].pc.Ended?
      case Done => false
      case _ => true
  }

  function Put(s: State, i: nat, pc: Pc): State
    requires i < |s.listeners|
  {
    s.(listeners := s.listeners[i := s.listeners[i].(pc := pc)])
  }

  function ListenerNext(s: State, i: nat): State
    requires Enabled(s, ListenerStep(i))
  {
    match s.listeners[i].pc
    case Ready => Put(s, i, Ended)
    case Testing => Put(s, i, if s.active then Locking else Ready)
    case Locking => Put(s, i, Copying).(owner := TheListener(i))
    case Copying => Put(s, i, Calling(s.hasCallback)).(owner := Nobody)
    case Calling(_) => Put(s, i, Ready)
  }

  function DestroyerNext(s: State): State
    requires Enabled(s, DestroyerStep)
  {
    match s.destroyer
    case LockFirst => s.(owner := TheDestroyer, destroyer := Clear)
    case Clear => s.(hasCallback := false, active := false, destroyer := Pop)
    case Pop =>
      if s.bindings == [] then
        s.(owner := Nobody, destroyer := DestroyMutex)
      else
        var b := s.bindings[0];
        var s1 := s.(bindings := s.bindings[1..]);
        if b < |s.listeners| && !s.listeners[b].pc.Absent? then s1.(owner := Nobody, destroyer := Stop(b))
        else s1.(destroyer := FreeBinding(b))
    case Stop(b) => s.(listeners := s.listeners[b := s.listeners[b].(stopping := true)], destroyer := Await(b))
    case Await(b) => s.(destroyer := Relock(b))
    case Relock(b) => s.(owner := TheDestroyer, destroyer := FreeBinding(b))
    case FreeBinding(b) => s.(freed := s.freed + [b], destroyer := Pop)
    case DestroyMutex => s.(destroyer := Done)
  }

  function Step(s: State, e: Event): State
    requires Enabled(s, e)
  {
    match e
    case Input(i) => Put(s, i, Testing)
    case ListenerStep(i) => ListenerNext(s, i)
    case DestroyerStep => DestroyerNext(s)
  }

  predicate Legal(s: State, events: seq<Event>)
    decreases |events|
  {
    events == [] || (Enabled(s, events[0]) && Legal(Step(s, events[0]), events[1..]))
  }

  function Run(s: State, events: seq<Event>): State
    requires Legal(s, events)
    decreases |events|
  {
    if events == [] then s else Run(Step(s, events[0]), events[1..])
  }

  /** The connector in use: every listener's binding is on the list, and listeners are anywhere. */
  predicate Initial(s: State) {
    && s.active && s.freed == [] && s.destroyer.LockFirst?
    && (forall i :: 0 <= i < |s.listeners| ==> i in s.bindings && !s.listeners[i].stopping && !s.listeners[i].pc.Ended?)
    && (forall j :: 0 <= j < |s.bindings| ==> s.bindings[j] < |s.listeners|)
    && (forall j, k :: 0 <= j < k < |s.bindings| ==> s.bindings[j] != s.bindings[k])
    && OwnersAgree(s)
  }

  // ----- What every interleaving keeps

  predicate DestroyerHolds(d: Destroyer) {
    d.Clear? || d.Pop? || d.FreeBinding?
  }

  predicate OwnersAgree(s: State) {
    && (s.owner.TheDestroyer? <==> DestroyerHolds(s.destroyer))
    && (s.owner.TheListener? ==> s.owner.i < |s.listeners|)
    && (forall i :: 0 <= i < |s.listeners| ==> (s.listeners[i].pc.Copying? <==> s.owner == TheListener(i)))
  }

  /** The binding the destroyer has in hand. */
  function InHand(d: Destroyer): seq<nat> {
    if d.Stop? || d.Await? || d.Relock? || d.FreeBinding? then [d.b] else []
  }

  /** The destroyer has nothing more to do with listener i. */
  predicate Passed(s: State, i: nat) {
    i in s.freed || s.destroyer == Relock(i) || s.destroyer == FreeBinding(i)
  }

  /** No binding is lost, doubled or reordered. */
  predicate OrderKept(s: State, order: seq<nat>) {
    && s.freed + InHand(s.destroyer) + s.bindings == order
    && (forall j :: 0 <= j < |order| ==> order[j] < |s.listeners|)
    && (forall j, k :: 0 <= j < k < |order| ==> order[j] != order[k])
    && (forall i :: 0 <= i < |s.listeners| ==> i in order)
    && (s.destroyer.LockFirst? || s.destroyer.Clear? ==> s.freed == [])
    && (s.destroyer.DestroyMutex? || s.destroyer.Done? ==> s.bindings == [])
  }

  /** A listener ends only because it is stopped, and is passed only when it has ended. */
  predicate ListenersAgree(s: State) {
    && (forall i :: 0 <= i < |s.listeners| ==>
          && (s.listeners[i].pc.Ended? ==> s.listeners[i].stopping)
          && (s.listeners[i].stopping ==> Passed(s, i) || s.destroyer == Await(i))
          && (Passed(s, i) ==> s.listeners[i].pc.Absent? || s.listeners[i].pc.Ended?))
    && (s.destroyer.Stop? || s.destroyer.Await? ==>
          s.destroyer.b < |s.listeners| && !s.listeners[s.destroyer.b].pc.Absent?)
    && (s.destroyer.Await? ==> s.listeners[s.destroyer.b].stopping)
  }

  predicate FlagsAgree(s: State) {
    (s.active <==> s.destroyer.LockFirst? || s.destroyer.Clear?) && (!s.active ==> !s.hasCallback)
  }

  predicate Inv(s: State, order: seq<nat>) {
    OwnersAgree(s) && OrderKept(s, order) && ListenersAgree(s) && FlagsAgree(s)
  }

  lemma ListenerKeepsOwners(s: State, i: nat)
    requires OwnersAgree(s) && Enabled(s, ListenerStep(i))
    ensures OwnersAgree(ListenerNext(s, i))
  {
  }

  lemma ListenerKeepsListeners(s: State, i: nat)
    requires ListenersAgree(s) && Enabled(s, ListenerStep(i))
    ensures ListenersAgree(ListenerNext(s, i))
  {
  }

  lemma PopKeepsOrder(s: State, order: seq<nat>)
    requires OrderKept(s, order) && s.destroyer.Pop?
    ensures OrderKept(DestroyerNext(s), order)
    ensures s.bindings != [] ==> s.bindings[0] < |s.listeners| && s.bindings[0] !in s.freed
  {
    if s.bindings != [] {
      assert s.bindings == [s.bindings[0]] + s.bindings[1..];
      assert order[|s.freed|] == s.bindings[0];
      assert forall j :: 0 <= j < |s.freed| ==> s.freed[j] == order[j];
    }
  }

  lemma PopKeepsListeners(s: State)
    requires ListenersAgree(s) && s.destroyer.Pop?
    requires s.bindings != [] ==> s.bindings[0] < |s.listeners| && s.bindings[0] !in s.freed
    ensures ListenersAgree(DestroyerNext(s))
  {
  }

  lemma DestroyerKeepsInv(s: State, order: seq<nat>)
    requires Inv(s, order) && Enabled(s, DestroyerStep) && !s.destroyer.Pop?
    ensures Inv(DestroyerNext(s), order)
  {
  }

  lemma StepKeepsInv(s: State, e: Event, order: seq<nat>)
    requires Inv(s, order) && Enabled(s, e)
    ensures Inv(Step(s, e), order) && |Step(s, e).listeners| == |s.listeners|
  {
    match e
    case Input(i) =>
    case ListenerStep(i) =>
      ListenerKeepsOwners(s, i);
      ListenerKeepsListeners(s, i);
    case DestroyerStep =>
      if s.destroyer.Pop? {
        PopKeepsOrder(s, order);
        PopKeepsListeners(s);
      } else {
        DestroyerKeepsInv(s, order);
      }
  }

  lemma {:induction false} RunKeepsInv(s: State, events: seq<Event>, order: seq<nat>)
    requires Inv(s, order) && Legal(s, events)
    ensures Inv(Run(s, events), order) && |Run(s, events).listeners| == |s.listeners|
    decreases |events|
  {
    if events == [] {
    } else {
      StepKeepsInv(s, events[0], order);
      RunKeepsInv(Step(s, events[0]), events[1..], order);
    }
  }

  lemma StartsInOrder(s: State)
    requires Initial(s)
    ensures OrderKept(s, s.bindings)
  {
    assert s.freed + InHand(s.destroyer) + s.bindings == s.bindings;
  }

  lemma StartsWithInv(s: State)
    requires Initial(s)
    ensures Inv(s, s.bindings)
  {
    StartsInOrder(s);
  }

  lemma AfterAnyRun(s0: State, events: seq<Event>)
    requires Initial(s0) && Legal(s0, events)
    ensures Inv(Run(s0, events), s0.bindings)
  {
    StartsWithInv(s0);
    RunKeepsInv(s0, events, s0.bindings);
  }

  lemma FreedInOrder(s: State, order: seq<nat>)
    requires OrderKept(s, order)
    ensures s.freed <= order
    ensures s.destroyer.DestroyMutex? || s.destroyer.Done? ==> s.freed == order
  {
    assert s.freed + InHand(s.destroyer) + s.bindings == s.freed + (InHand(s.destroyer) + s.bindings);
  }

  lemma FreedHaveEnded(s: State)
    requires ListenersAgree(s)
    ensures forall i :: 0 <= i < |s.listeners| && i in s.freed ==> s.listeners[i].pc.Absent? || s.listeners[i].pc.Ended?
  {
    assert forall i :: 0 <= i < |s.listeners| && i in s.freed ==> Passed(s, i);
  }

  /** In every interleaving the bindings are freed in list order, each of them once; and none before
      its listener, if it has one, has ended. */
  lemma BindingsAreFreedOnce(s0: State, events: seq<Event>)
    requires Initial(s0) && Legal(s0, events)
    ensures var s := Run(s0, events);
            && s.freed <= s0.bindings
            && (s.destroyer.Done? ==> s.freed == s0.bindings)
            && (forall i :: 0 <= i < |s.listeners| && i in s.freed ==> s.listeners[i].pc.Absent? || s.listeners[i].pc.Ended?)
  {
    AfterAnyRun(s0, events);
    FreedInOrder(Run(s0, events), s0.bindings);
    FreedHaveEnded(Run(s0, events));
  }

  /** When the connector's lock is destroyed nobody owns it, and no listener is left that could ask
      for it. */
  lemma MutexIsUnusedWhenDestroyed(s0: State, events: seq<Event>)
    requires Initial(s0) && Legal(s0, events)
    requires Run(s0, events).destroyer.DestroyMutex? || Run(s0, events).destroyer.Done?
    ensures var s := Run(s0, events);
            && s.owner.Nobody?
            && (forall i :: !Enabled(s, ListenerStep(i)) && !Enabled(s, Input(i)))
  {
    AfterAnyRun(s0, events);
    NothingLeftToDo(Run(s0, events), s0.bindings);
  }

  lemma AllHaveEnded(s0: State, events: seq<Event>)
    requires Initial(s0) && Legal(s0, events) && Run(s0, events).destroyer.Done?
    ensures forall l <- Run(s0, events).listeners :: l.pc.Absent? || l.pc.Ended?
  {
    AfterAnyRun(s0, events);
    FreedInOrder(Run(s0, events), s0.bindings);
    FreedHaveEnded(Run(s0, events));
  }

  lemma NothingLeftToDo(s: State, order: seq<nat>)
    requires Inv(s, order) && (s.destroyer.DestroyMutex? || s.destroyer.Done?)
    ensures s.owner.Nobody? && forall i :: !Enabled(s, ListenerStep(i)) && !Enabled(s, Input(i))
  {
    FreedInOrder(s, order);
    FreedHaveEnded(s);
  }

  // ----- One input

  lemma RunCons(s: State, e: Event, rest: seq<Event>)
    requires Enabled(s, e) && Legal(Step(s, e), rest)
    ensures Legal(s, [e] + rest) && Run(s, [e] + rest) == Run(Step(s, e), rest)
  {
    assert ([e] + rest)[1..] == rest;
  }

  lemma RunThree(s: State, e0: Event, e1: Event, e2: Event)
    requires Enabled(s, e0) && Enabled(Step(s, e0), e1) && Enabled(Step(Step(s, e0), e1), e2)
    ensures Legal(s, [e0, e1, e2]) && Run(s, [e0, e1, e2]) == Step(Step(Step(s, e0), e1), e2)
  {
    var s1 := Step(s, e0);
    RunCons(Step(s1, e1), e2, []);
    RunCons(s1, e1, [e2] + []);
    RunCons(s, e0, [e1] + ([e2] + []));
    assert [e0] + ([e1] + ([e2] + [])) == [e0, e1, e2];
  }

  /** An input that finds the connector active passes its lock and calls the callback, if there is
      one; then everything is as before. */
  lemma InputCallsCallback(s: State, i: nat)
    requires i < |s.listeners| && s.listeners[i] == Listener(Ready, false) && s.active && s.owner.Nobody?
    ensures var taken := Step(s, Input(i));
            && Legal(taken, [ListenerStep(i), ListenerStep(i), ListenerStep(i)])
            && var called := Run(taken, [ListenerStep(i), ListenerStep(i), ListenerStep(i)]);
               && called == s.(listeners := s.listeners[i := Listener(Calling(s.hasCallback), false)])
               && (InCallback(called, i) <==> s.hasCallback)
               && Enabled(called, ListenerStep(i)) && Step(called, ListenerStep(i)) == s
  {
    var taken := Put(s, i, Testing);
    var locked := Put(s, i, Locking);
    var copying := Put(s, i, Copying).(owner := TheListener(i));
    assert Step(s, Input(i)) == taken;
    assert Step(taken, ListenerStep(i)).listeners == locked.listeners && Step(taken, ListenerStep(i)) == locked;
    assert Step(locked, ListenerStep(i)).listeners == copying.listeners && Step(locked, ListenerStep(i)) == copying;
    RunThree(taken, ListenerStep(i), ListenerStep(i), ListenerStep(i));
    var called := s.(listeners := s.listeners[i := Listener(Calling(s.hasCallback), false)]);
    assert Step(copying, ListenerStep(i)).listeners == called.listeners;
    assert Step(called, ListenerStep(i)).listeners == s.listeners;
  }

  /** An input that finds it inactive is dropped at the test. */
  lemma InactiveDropsInput(s: State, i: nat)
    requires i < |s.listeners| && s.listeners[i] == Listener(Ready, false) && !s.active
    ensures var taken := Step(s, Input(i));
            Enabled(taken, ListenerStep(i)) && Step(taken, ListenerStep(i)) == s
  {
    assert Step(Step(s, Input(i)), ListenerStep(i)).listeners == s.listeners;
  }

  // ----- Callbacks

  predicate InCallback(s: State, i: nat) {
    i < |s.listeners| && s.listeners[i].pc == Calling(true)
  }

  lemma StepStartsNoCallback(s: State, e: Event, i: nat)
    requires Enabled(s, e) && !s.hasCallback && InCallback(Step(s, e), i)
    ensures InCallback(s, i)
  {
  }

  /** Once the callback is cleared none is started; those under way are all there are. */
  lemma {:induction false} NoCallbackStarts(s: State, events: seq<Event>, i: nat)
    requires Legal(s, events) && !s.hasCallback && InCallback(Run(s, events), i)
    ensures InCallback(s, i)
    decreases |events|
  {
    if events == [] {
    } else {
      NoCallbackStarts(Step(s, events[0]), events[1..], i);
      StepStartsNoCallback(s, events[0], i);
    }
  }

  // ----- A listener's inside

  function StageOf(pc: Pc): L.Stage {
    match pc
    case Absent => L.Between
    case Ready => L.Between
    case Ended => L.Ended
    case _ => L.InInput
  }

  /** A listener with its own destroyer, and the listener here: same stage, and `stopping` stands for
      the cleared active flag. */
  predicate Matches(inner: LS.State, l: Listener) {
    !l.pc.Absent? && StageOf(l.pc) == L.StageOf(inner.listener) && (l.stopping <==> !inner.active)
  }

  /** The connector's callback is through with this input. */
  predicate HasReturned(s: State, i: nat)
    requires i < |s.listeners|
  {
    s.listeners[i].pc.Calling? || (s.listeners[i].pc.Testing? && !s.active)
  }

  /** Every step of a listener and its destroyer by themselves is matched here by a step or by none:
      taking up input, coming back from the callback, leaving the loop, and being stopped. The
      callback comes back when it does here, and the flag is cleared when the destroyer here stops
      this listener. */
  lemma InnerStepIsMatched(inner: LS.State, e: LS.Event, s: State, i: nat) returns (matched: Option<Event>)
    requires LS.Inv(inner) && L.CallbackIffActive(inner) && LS.Enabled(inner, e)
    requires i < |s.listeners| && Matches(inner, s.listeners[i])
    requires L.StageOf(inner.listener) == L.InInput && L.StageOf(LS.Step(inner, e).listener) != L.InInput ==>
               HasReturned(s, i)
    requires inner.active && !LS.Step(inner, e).active ==> s.destroyer == Stop(i)
    ensures match matched
            case None => Matches(LS.Step(inner, e), s.listeners[i])
            case Some(own) => Enabled(s, own) && Matches(LS.Step(inner, e), Step(s, own).listeners[i])
  {
    var from, to := L.StageOf(inner.listener), L.StageOf(LS.Step(inner, e).listener);
    L.StagesFollowActive(inner, e);
    L.FlagOrStage(inner, e);
    if inner.active && !LS.Step(inner, e).active {
      matched := Some(DestroyerStep);
    } else if from == to {
      matched := None;
    } else if to == L.InInput {
      matched := Some(Input(i));
    } else {
      matched := Some(ListenerStep(i));
    }
  }

  /** The other way: listeners here move only as one does by itself; and where the destroyer goes on
      here, the other one does (`NoCallbackOnceTearingDown`). */
  lemma ListenersMoveInStages(s: State, e: Event, i: nat)
    requires Enabled(s, e) && i < |s.listeners|
    ensures L.MayFollow(StageOf(s.listeners[i].pc), StageOf(Step(s, e).listeners[i].pc), !s.listeners[i].stopping)
    ensures e.DestroyerStep? && s.destroyer == Await(i) ==> StageOf(s.listeners[i].pc) == L.Ended
  {
  }

  /** When the listener's own destroyer is through with waiting, so is this one. */
  lemma WaitIsMatched(inner: seq<LS.Event>, s: State, i: nat)
    requires LS.Legal(LS.START, inner) && LS.InTeardownPart(LS.Run(LS.START, inner).destroyer)
    requires i < |s.listeners| && Matches(LS.Run(LS.START, inner), s.listeners[i]) && s.destroyer == Await(i)
    ensures Enabled(s, DestroyerStep)
  {
    L.NoCallbackOnceTearingDown(inner);
  }

  // ----- The destroyer gets through

  function Left(l: Listener): nat {
    match l.pc
    case Testing => 5
    case Locking => 4
    case Copying => 3
    case Calling(_) => 2
    case Ready => 1
    case Absent => 0
    case Ended => 0
  }

  function LeftAll(listeners: seq<Listener>): nat {
    if listeners == [] then 0 else Left(listeners[0]) + LeftAll(listeners[1..])
  }

  function DestroyerLeft(s: State): nat {
    6 * |s.bindings| +
    match s.destroyer
    case LockFirst => 5
    case Clear => 4
    case Pop => 2
    case Stop(_) => 6
    case Await(_) => 5
    case Relock(_) => 4
    case FreeBinding(_) => 3
    case DestroyMutex => 1
    case Done => 0
  }

  function Remaining(s: State): nat {
    LeftAll(s.listeners) + DestroyerLeft(s)
  }

  lemma {:induction false} LeftUpdate(listeners: seq<Listener>, i: nat, l: Listener)
    requires i < |listeners|
    ensures LeftAll(listeners[i := l]) == LeftAll(listeners) - Left(listeners[i]) + Left(l)
  {
    if i == 0 {
      assert listeners[i := l][1..] == listeners[1..];
    } else {
      assert listeners[i := l][1..] == listeners[1..][i - 1 := l];
      LeftUpdate(listeners[1..], i - 1, l);
    }
  }

  lemma PutShortens(s: State, i: nat, pc: Pc)
    requires i < |s.listeners|
    ensures LeftAll(Put(s, i, pc).listeners) == LeftAll(s.listeners) - Left(s.listeners[i]) + Left(Listener(pc, false))
  {
    LeftUpdate(s.listeners, i, s.listeners[i].(pc := pc));
  }

  lemma ListenerShortens(s: State, i: nat)
    requires Enabled(s, ListenerStep(i))
    ensures Remaining(ListenerNext(s, i)) < Remaining(s)
  {
    var next := ListenerNext(s, i);
    var pc := next.listeners[i].pc;
    assert next.listeners == Put(s, i, pc).listeners;
    assert Left(Listener(pc, false)) < Left(s.listeners[i]);
    assert DestroyerLeft(next) == DestroyerLeft(s);
    PutShortens(s, i, pc);
  }

  lemma DestroyerShortens(s: State)
    requires Enabled(s, DestroyerStep)
    ensures Remaining(DestroyerNext(s)) < Remaining(s)
  {
    if s.destroyer.Stop? {
      var b := s.destroyer.b;
      LeftUpdate(s.listeners, b, s.listeners[b].(stopping := true));
    }
  }

  lemma StepShortens(s: State, e: Event)
    requires Enabled(s, e)
    ensures Remaining(Step(s, e)) <= Remaining(s) + (if e.Input? then 4 else -1)
  {
    match e
    case Input(i) => PutShortens(s, i, Testing);
    case ListenerStep(i) => ListenerShortens(s, i);
    case DestroyerStep => DestroyerShortens(s);
  }

  function Inputs(events: seq<Event>): nat {
    if events == [] then 0 else (if events[0].Input? then 1 else 0) + Inputs(events[1..])
  }

  /** Between inputs only boundedly many steps are possible, ... */
  lemma {:induction false} DrainIsShort(s: State, events: seq<Event>)
    requires Legal(s, events)
    ensures |events| <= Remaining(s) + 5 * Inputs(events)
    decreases |events|
  {
    if events == [] {
    } else {
      StepShortens(s, events[0]);
      DrainIsShort(Step(s, events[0]), events[1..]);
    }
  }

  /** ... and until the destroyer is through one of them always is: it never waits for a listener
      that waits for it. */
  lemma AlwaysSomebodyGoesOn(s0: State, events: seq<Event>)
    requires Initial(s0) && Legal(s0, events) && !Run(s0, events).destroyer.Done?
    ensures var s := Run(s0, events);
            Enabled(s, DestroyerStep) || exists i :: Enabled(s, ListenerStep(i))
  {
    AfterAnyRun(s0, events);
    SomebodyGoesOn(Run(s0, events), s0.bindings);
  }

  lemma SomebodyGoesOn(s: State, order: seq<nat>)
    requires Inv(s, order) && !s.destroyer.Done?
    ensures Enabled(s, DestroyerStep) || exists i :: Enabled(s, ListenerStep(i))
  {
    if s.owner.TheListener? {
      assert Enabled(s, ListenerStep(s.owner.i));
    } else if s.destroyer.Await? && !s.listeners[s.destroyer.b].pc.Ended? {
      assert Enabled(s, ListenerStep(s.destroyer.b));
    }
  }

  /** The connector as mutable state; one method call is one step of a thread. */
  class Connector {
    var active: bool
    var hasCallback: bool
    var owner: Owner
    var bindings: seq<nat>
    ghost var freed: seq<nat>
    const listeners: array<Listener>
    var destroyer: Destroyer

    ghost function View(): State
      reads this, listeners
    {
      State(active, hasCallback, owner, bindings, freed, listeners[..], destroyer)
    }

    constructor (bindings: seq<nat>, n: nat)
      ensures View() == State(true, true, Nobody, bindings, [], seq(n, _ => Listener(Ready, false)), LockFirst)
      ensures fresh(listeners)
    {
      active, hasCallback, owner, this.bindings, freed, destroyer := true, true, Nobody, bindings, [], LockFirst;
      listeners := new Listener[n](_ => Listener(Ready, false));
    }

    method TakeInput(i: nat)
      requires Enabled(View(), Input(i))
      modifies listeners
      ensures View() == Step(old(View()), Input(i))
    {
      listeners[i] := listeners[i].(pc := Testing);
    }

    /** `framework_evdev_oninput`, and the listener's end. */
    method StepListener(i: nat)
      requires Enabled(View(), ListenerStep(i))
      modifies this, listeners
      ensures View() == Step(old(View()), ListenerStep(i))
    {
      var next: Pc;
      match listeners[i].pc {
        case Ready =>
          next := Ended;
        case Testing =>
          next := if !active then Ready else Locking;
        case Locking =>
          owner := TheListener(i);
          next := Copying;
        case Copying =>
          next := Calling(hasCallback);
          owner := Nobody;
        case Calling(_) =>
          next := Ready;
      }
      listeners[i] := listeners[i].(pc := next);
    }

    /** `framework_evdev_destroy`. */
    method StepDestroyer()
      requires Enabled(View(), DestroyerStep)
      modifies this, listeners
      ensures View() == Step(old(View()), DestroyerStep)
    {
      match destroyer
      case LockFirst =>
        owner := TheDestroyer;
        destroyer := Clear;
      case Clear =>
        hasCallback := false;
        active := false;
        destroyer := Pop;
      case Pop =>
        if bindings == [] {
          owner := Nobody;
          destroyer := DestroyMutex;
        } else {
          var b := bindings[0];
          bindings := bindings[1..];
          if b < listeners.Length && !listeners[b].pc.Absent? {
            owner := Nobody;
            destroyer := Stop(b);
          } else {
            destroyer := FreeBinding(b);
          }
        }
      case Stop(b) =>
        listeners[b] := listeners[b].(stopping := true);
        destroyer := Await(b);
      case Await(b) =>
        destroyer := Relock(b);
      case Relock(b) =>
        owner := TheDestroyer;
        destroyer := FreeBinding(b);
      case FreeBinding(b) =>
        freed := freed + [b];
        destroyer := Pop;
      case DestroyMutex =>
        destroyer := Done;
    }

    /** Any interleaving, played on the object: the bindings are freed in order and all of them in
        the end, when nobody has the lock or can ask for it. */
    method Drive(events: seq<Event>)
      requires Initial(View()) && Legal(View(), events)
      modifies this, listeners
      ensures View() == Run(old(View()), events)
      ensures freed <= old(bindings) && (destroyer.Done? ==> freed == old(bindings) && owner.Nobody?)
      ensures destroyer.Done? ==>
                forall i :: 0 <= i < listeners.Length ==> listeners[i].pc.Absent? || listeners[i].pc.Ended?
    {
      ghost var start := View();
      var i := 0;
      assert events[0..] == events;
      while i < |events|
        invariant 0 <= i <= |events|
        invariant Legal(View(), events[i..]) && Run(View(), events[i..]) == Run(start, events)
      {
        assert events[i..][0] == events[i] && events[i..][1..] == events[i + 1..];
        match events[i] {
          case Input(k) => TakeInput(k);
          case ListenerStep(k) => StepListener(k);
          case DestroyerStep => StepDestroyer();
        }
        i := i + 1;
      }
      BindingsAreFreedOnce(start, events);
      if destroyer.Done? {
        MutexIsUnusedWhenDestroyed(start, events);
        AllHaveEnded(start, events);
      }
    }
  }
}
