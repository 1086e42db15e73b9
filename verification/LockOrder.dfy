/** Deadlock freedom of the kernel module's locks. Every function is reduced to the order in which
    it takes and gives back locks; any number of threads run such scripts. */
module LockOrder {
  import opened MachineIntegers

  /** The mutexes, and the callout's reader/writer lock. */
  datatype Lock =
    | EvdevList        // of the input device
    | ClientBuffer     // of the evdev client
    | Session          // of the listener
    | Callout
    | CalloutRw
    | ScreenConfig
    | Evdev
    | PowerState
    | DimState
    | Sysctl           // taken by every debug print

  function Rank(l: Lock): nat {
    match l
    case EvdevList => 1
    case ClientBuffer => 2
    case Session => 3
    case Callout => 4
    case CalloutRw => 5
    case ScreenConfig => 6
    case Evdev => 7
    case PowerState => 8
    case DimState => 9
    case Sysctl => 10
  }

  /** Take exclusively, take shared, give back. */
  datatype Op = Acquire(l: Lock) | AcquireShared(l: Lock) | Release(l: Lock)

  type Script = seq<Op>

  // ----- Scripts

  /** What a thread holds: the locks of its script so far, the latest first. */
  datatype Hold = Hold(l: Lock, shared: bool)

  function Without(held: seq<Hold>, l: Lock): seq<Hold> {
    if held == [] then []
    else if held[0].l == l then held[1..]
    else [held[0]] + Without(held[1..], l)
  }

  function HeldAfter(held: seq<Hold>, op: Op): seq<Hold> {
    match op
    case Acquire(l) => [Hold(l, false)] + held
    case AcquireShared(l) => [Hold(l, true)] + held
    case Release(l) => Without(held, l)
  }

  function HeldAll(held: seq<Hold>, script: Script): seq<Hold>
    decreases |script|
  {
    if script == [] then held else HeldAll(HeldAfter(held, script[0]), script[1..])
  }

  predicate Above(held: seq<Hold>, rank: nat) {
    forall i :: 0 <= i < |held| ==> Rank(held[i].l) < rank
  }

  predicate OpInOrder(held: seq<Hold>, op: Op) {
    match op
    case Acquire(l) => Above(held, Rank(l))
    case AcquireShared(l) => Above(held, Rank(l))
    case Release(l) => IsHeld(held, l)
  }

  predicate IsHeld(held: seq<Hold>, l: Lock) {
    exists i :: 0 <= i < |held| && held[i].l == l
  }

  /** Every acquisition is of a lock ranked above all that are held, only held locks are given
      back, and in the end nothing is held. */
  predicate InOrder(held: seq<Hold>, script: Script)
    decreases |script|
  {
    if script == [] then held == []
    else OpInOrder(held, script[0]) && InOrder(HeldAfter(held, script[0]), script[1..])
  }

  lemma InOrderCons(held: seq<Hold>, op: Op, rest: Script)
    requires OpInOrder(held, op) && InOrder(HeldAfter(held, op), rest)
    ensures InOrder(held, [op] + rest)
  {
    assert ([op] + rest)[1..] == rest;
  }

  // ----- Threads

  /** A thread runs its script from `pc` on. */
  datatype Thread = Thread(script: Script, pc: nat)
  {
    predicate Finished() {
      pc >= |script|
    }

    /** What the thread's script so far leaves it holding, also once it is finished. */
    function Held(): seq<Hold> {
      if Finished() then HeldAll([], script) else HeldAll([], script[..pc])
    }

    function Next(): Op
      requires !Finished()
    {
      script[pc]
    }
  }

  predicate Holds(t: Thread, l: Lock) {
    IsHeld(t.Held(), l)
  }

  predicate HoldsExclusively(t: Thread, l: Lock) {
    exists i :: 0 <= i < |t.Held()| && t.Held()[i] == Hold(l, false)
  }

  predicate WantsExclusively(t: Thread, l: Lock) {
    !t.Finished() && t.Next() == Acquire(l)
  }

  /** An exclusive lock needs the lock free; a shared one needs it free of exclusive holders, and
      gives way to threads waiting for exclusive access. */
  predicate CanStep(threads: seq<Thread>, i: nat)
    requires i < |threads|
  {
    !threads[i].Finished() &&
    match threads[i].Next()
    case Release(_) => true
    case Acquire(l) => forall j :: 0 <= j < |threads| ==> !Holds(threads[j], l)
    case AcquireShared(l) =>
      forall j :: 0 <= j < |threads| ==> !HoldsExclusively(threads[j], l) && !WantsExclusively(threads[j], l)
  }

  function Step(threads: seq<Thread>, i: nat): seq<Thread>
    requires i < |threads| && CanStep(threads, i)
  {
    threads[i := threads[i].(pc := threads[i].pc + 1)]
  }

  /** All scripts are in order. Steps do not touch scripts, so every reachable state has this. */
  predicate AllInOrder(threads: seq<Thread>) {
    forall i :: 0 <= i < |threads| ==> InOrder([], threads[i].script)
  }

  lemma {:induction false} InOrderAt(held: seq<Hold>, script: Script, pc: nat)
    requires InOrder(held, script) && pc < |script|
    ensures OpInOrder(HeldAll(held, script[..pc]), script[pc])
    decreases pc
  {
    if pc == 0 {
    } else {
      InOrderAt(HeldAfter(held, script[0]), script[1..], pc - 1);
      assert script[..pc][1..] == script[1..][..pc - 1];
    }
  }

  lemma {:induction false} InOrderEndsEmpty(held: seq<Hold>, script: Script)
    requires InOrder(held, script)
    ensures HeldAll(held, script) == []
    decreases |script|
  {
    if script == [] {
    } else {
      InOrderEndsEmpty(HeldAfter(held, script[0]), script[1..]);
    }
  }

  predicate Waiting(t: Thread) {
    !t.Finished() && !t.Next().Release?
  }

  function Wanted(t: Thread): Lock
    requires Waiting(t)
  {
    t.Next().l
  }

  /** A waiting thread holds only locks ranked below the one it waits for. */
  lemma WaitsAboveHeld(threads: seq<Thread>, i: nat, l: Lock)
    requires AllInOrder(threads) && i < |threads| && Waiting(threads[i]) && Holds(threads[i], l)
    ensures Rank(l) < Rank(Wanted(threads[i]))
  {
    InOrderAt([], threads[i].script, threads[i].pc);
  }

  /** A waits-for chain: each thread waits for a lock the next one holds. */
  predicate Chain(threads: seq<Thread>, chain: seq<nat>) {
    && (forall k :: 0 <= k < |chain| ==> chain[k] < |threads|)
    && (forall k :: 0 <= k < |chain| - 1 ==>
          Waiting(threads[chain[k]]) && Holds(threads[chain[k + 1]], Wanted(threads[chain[k]])))
  }

  lemma {:induction false} ChainClimbs(threads: seq<Thread>, chain: seq<nat>)
    requires AllInOrder(threads) && Chain(threads, chain) && |chain| >= 2
    requires Waiting(threads[chain[|chain| - 1]])
    ensures Rank(Wanted(threads[chain[0]])) < Rank(Wanted(threads[chain[|chain| - 1]]))
    decreases |chain|
  {
    WaitsAboveHeld(threads, chain[1], Wanted(threads[chain[0]]));
    if |chain| == 2 {
    } else {
      assert Chain(threads, chain[1..]);
      ChainClimbs(threads, chain[1..]);
    }
  }

  /** There is no circular wait, among any number of threads at any point of their scripts. */
  lemma NoCircularWait(threads: seq<Thread>, chain: seq<nat>)
    requires AllInOrder(threads) && Chain(threads, chain) && |chain| >= 2
    ensures chain[0] != chain[|chain| - 1]
  {
    if chain[0] == chain[|chain| - 1] {
      ChainClimbs(threads, chain);
    }
  }

  // ----- Progress

  /** The waiting thread with the highest-ranked wanted lock among the first n. */
  lemma {:induction false} HighestWaiting(threads: seq<Thread>, n: nat) returns (top: nat)
    requires 0 < n <= |threads| && exists i :: 0 <= i < n && Waiting(threads[i])
    ensures top < n && Waiting(threads[top])
    ensures forall i :: 0 <= i < n && Waiting(threads[i]) ==> Rank(Wanted(threads[i])) <= Rank(Wanted(threads[top]))
    decreases n
  {
    if exists i :: 0 <= i < n - 1 && Waiting(threads[i]) {
      top := HighestWaiting(threads, n - 1);
      if Waiting(threads[n - 1]) && Rank(Wanted(threads[n - 1])) > Rank(Wanted(threads[top])) {
        top := n - 1;
      }
    } else {
      top := n - 1;
    }
  }

  lemma TopLockIsFree(threads: seq<Thread>, top: nat)
    requires AllInOrder(threads) && top < |threads| && Waiting(threads[top])
    requires forall i :: 0 <= i < |threads| && !threads[i].Finished() ==> Waiting(threads[i])
    requires forall i :: 0 <= i < |threads| && Waiting(threads[i]) ==> Rank(Wanted(threads[i])) <= Rank(Wanted(threads[top]))
    ensures forall j :: 0 <= j < |threads| ==> !Holds(threads[j], Wanted(threads[top]))
  {
    forall j | 0 <= j < |threads|
      ensures !Holds(threads[j], Wanted(threads[top]))
    {
      if threads[j].Finished() {
        InOrderEndsEmpty([], threads[j].script);
      } else if Holds(threads[j], Wanted(threads[top])) {
        WaitsAboveHeld(threads, j, Wanted(threads[top]));
      }
    }
  }

  /** No deadlock: as long as some thread is unfinished, some thread can take its next step. */
  lemma SomeThreadCanStep(threads: seq<Thread>)
    requires AllInOrder(threads)
    requires exists i :: 0 <= i < |threads| && !threads[i].Finished()
    ensures exists i :: 0 <= i < |threads| && CanStep(threads, i)
  {
    if i :| 0 <= i < |threads| && !threads[i].Finished() && !Waiting(threads[i]) {
      assert CanStep(threads, i);
    } else {
      var some :| 0 <= some < |threads| && !threads[some].Finished();
      assert Waiting(threads[some]);
      var top := HighestWaiting(threads, |threads|);
      TopLockIsFree(threads, top);
      if threads[top].Next().Acquire? {
        assert CanStep(threads, top);
      } else if w :| 0 <= w < |threads| && WantsExclusively(threads[w], Wanted(threads[top])) {
        assert CanStep(threads, w);
      } else {
        SharedHoldersOnly(threads, Wanted(threads[top]));
        assert CanStep(threads, top);
      }
    }
  }

  lemma SharedHoldersOnly(threads: seq<Thread>, l: Lock)
    requires forall j :: 0 <= j < |threads| ==> !Holds(threads[j], l)
    ensures forall j :: 0 <= j < |threads| ==> !HoldsExclusively(threads[j], l)
  {
  }

  function Left(threads: seq<Thread>): nat {
    if threads == [] then 0
    else (if threads[0].Finished() then 0 else |threads[0].script| - threads[0].pc) + Left(threads[1..])
  }

  /** Every step shortens what is left to do, so by SomeThreadCanStep all threads finish. */
  lemma {:induction false} StepsComeToAnEnd(threads: seq<Thread>, i: nat)
    requires i < |threads| && !threads[i].Finished()
    ensures Left(threads[i := threads[i].(pc := threads[i].pc + 1)]) == Left(threads) - 1
  {
    var after := threads[i := threads[i].(pc := threads[i].pc + 1)];
    if i == 0 {
      assert after[1..] == threads[1..];
    } else {
      assert after[1..] == threads[1..][i - 1 := threads[i].(pc := threads[i].pc + 1)];
      StepsComeToAnEnd(threads[1..], i - 1);
    }
  }

  // ----- The scripts of the module

  /** Locks are taken and given back in nested sections. */
  datatype Section = Section(l: Lock, shared: bool, inner: seq<Section>)

  /** The sections one after the other, followed by `rest`. */
  function Flatten(sections: seq<Section>, rest: Script): Script
    decreases sections
  {
    if sections == [] then rest
    else
      var s := sections[0];
      [if s.shared then AcquireShared(s.l) else Acquire(s.l)] +
      Flatten(s.inner, [Release(s.l)] + Flatten(sections[1..], rest))
  }

  /** Sections climb in rank from the outside to the inside. */
  predicate Climbing(sections: seq<Section>, floor: nat) {
    forall i :: 0 <= i < |sections| ==>
      floor < Rank(sections[i].l) && Climbing(sections[i].inner, Rank(sections[i].l))
  }

  lemma {:induction false} ClimbingIsInOrder(held: seq<Hold>, sections: seq<Section>, floor: nat, rest: Script)
    requires Climbing(sections, floor) && Above(held, floor + 1) && InOrder(held, rest)
    ensures InOrder(held, Flatten(sections, rest))
    decreases sections
  {
    if sections == [] {
    } else {
      var s, more := sections[0], Flatten(sections[1..], rest);
      ClimbingIsInOrder(held, sections[1..], floor, rest);
      ReleaseInOrder(held, Hold(s.l, s.shared), more);
      ClimbingIsInOrder([Hold(s.l, s.shared)] + held, s.inner, Rank(s.l), [Release(s.l)] + more);
      AcquireInOrder(held, s, floor, Flatten(s.inner, [Release(s.l)] + more));
    }
  }

  lemma ReleaseInOrder(held: seq<Hold>, h: Hold, rest: Script)
    requires InOrder(held, rest)
    ensures InOrder([h] + held, [Release(h.l)] + rest)
  {
    assert ([h] + held)[0] == h && ([h] + held)[1..] == held;
    InOrderCons([h] + held, Release(h.l), rest);
  }

  lemma AcquireInOrder(held: seq<Hold>, s: Section, floor: nat, rest: Script)
    requires Above(held, floor + 1) && floor < Rank(s.l) && InOrder([Hold(s.l, s.shared)] + held, rest)
    ensures InOrder(held, [if s.shared then AcquireShared(s.l) else Acquire(s.l)] + rest)
  {
    InOrderCons(held, if s.shared then AcquireShared(s.l) else Acquire(s.l), rest);
  }

  function In(l: Lock, inner: seq<Section>): Section {
    Section(l, false, inner)
  }

  /** A debug print asks for the debug level under the sysctl lock. */
  const TRACE: Section := In(Sysctl, [])

  /** The functions that take locks. msleep gives its mutex up and takes it back, so it separates
      two sections; so does calling out of a section that is left for the call. */
  datatype Function =
    | ListenerStart | ListenerTurn | ListenerExit | ClientDestructor
    | RegisterClient | UnregisterClient | DestroyListener
    | SetCallback | GetLastInput | OnInput | EvdevDestroy
    | GetPowerMode | GetBrightness | ChangeBrightness
    | CalloutTurn | CalloutDestroy
    | ScreenSysctl | DimblockSysctl | DebugSysctl

  function Body(f: Function): seq<Section> {
    match f
    case ListenerStart => [In(Session, [TRACE])]
    case ListenerTurn =>
      [In(ClientBuffer, [TRACE]), In(ClientBuffer, [TRACE, TRACE, In(Session, []), TRACE]), In(ClientBuffer, [TRACE])]
    case ListenerExit => [In(Session, [TRACE]), In(ClientBuffer, [TRACE, In(Session, [TRACE])])]
    case ClientDestructor => [In(EvdevList, [TRACE]), In(ClientBuffer, [TRACE])]
    case RegisterClient => [In(Session, []), In(EvdevList, []), In(Session, [TRACE])]
    case UnregisterClient => [In(Session, []), In(EvdevList, [TRACE]), In(ClientBuffer, [TRACE]), In(Session, [TRACE])]
    case DestroyListener =>
      [In(Session, []), In(ClientBuffer, [TRACE, In(Session, []), TRACE]), In(ClientBuffer, [TRACE]),
       In(Session, []), In(EvdevList, [TRACE]), In(Session, []), In(ClientBuffer, [TRACE]), In(Session, [])]
    case SetCallback => [In(Evdev, [])]
    case GetLastInput => [In(Evdev, [])]
    case OnInput => [In(Evdev, [TRACE]), In(CalloutRw, [])]
    case EvdevDestroy => [In(Evdev, [TRACE]), In(Evdev, [TRACE])]
    case GetPowerMode => [In(PowerState, [TRACE]), In(PowerState, [])]
    case GetBrightness => [Section(CalloutRw, true, [In(ScreenConfig, [])])]
    case ChangeBrightness => [In(ScreenConfig, []), In(ScreenConfig, []), In(ScreenConfig, [])]
    case CalloutTurn =>
      [In(Callout, []), In(ScreenConfig, []), In(Callout, [TRACE]), In(Evdev, []), In(Callout, [TRACE, In(CalloutRw, [])]),
       In(Callout, [TRACE]), In(Callout, [])]
    case CalloutDestroy => [In(Evdev, []), In(Callout, [TRACE, TRACE]), In(Callout, [])]
    case ScreenSysctl => [In(ScreenConfig, []), In(ScreenConfig, [])]
    case DimblockSysctl => [In(DimState, []), In(DimState, [])]
    case DebugSysctl => [In(Sysctl, []), In(Sysctl, [])]
  }

  lemma SectionClimbs(s: Section, floor: nat)
    requires floor < Rank(s.l) && Climbing(s.inner, Rank(s.l))
    ensures Climbing([s], floor)
  {
  }

  lemma ListenerBodiesClimb(f: Function)
    requires f.ListenerStart? || f.ListenerTurn? || f.ListenerExit? || f.DestroyListener?
    ensures Climbing(Body(f), 0)
  {
    var none: seq<Section> := [];
    assert Climbing(none, 3) && Climbing(none, 10);
    SectionClimbs(TRACE, 1);
    SectionClimbs(TRACE, 2);
    SectionClimbs(TRACE, 3);
    match f
    case ListenerStart =>
    case ListenerTurn => assert Climbing([TRACE, TRACE, In(Session, []), TRACE], 2);
    case ListenerExit => assert Climbing([TRACE, In(Session, [TRACE])], 2);
    case DestroyListener => assert Climbing([TRACE, In(Session, []), TRACE], 2);
  }

  lemma ClientBodiesClimb(f: Function)
    requires f.ClientDestructor? || f.RegisterClient? || f.UnregisterClient?
    ensures Climbing(Body(f), 0)
  {
  }

  lemma CalloutTurnClimbs()
    ensures Climbing(Body(CalloutTurn), 0)
  {
  }

  lemma CalloutBodiesClimb(f: Function)
    requires f.CalloutDestroy? || f.GetBrightness?
    ensures Climbing(Body(f), 0)
  {
  }

  lemma TracedBodiesClimb(f: Function)
    requires f.OnInput? || f.EvdevDestroy? || f.GetPowerMode? || f.DebugSysctl?
    ensures Climbing(Body(f), 0)
  {
  }

  lemma LeafBodiesClimb(f: Function)
    requires f.SetCallback? || f.GetLastInput? || f.ChangeBrightness? || f.ScreenSysctl? || f.DimblockSysctl?
    ensures Climbing(Body(f), 0)
  {
  }

  /** Every function nests its locks in climbing rank. */
  lemma BodiesClimb(f: Function)
    ensures Climbing(Body(f), 0)
  {
    match f
    case ListenerStart => ListenerBodiesClimb(f);
    case ListenerTurn => ListenerBodiesClimb(f);
    case ListenerExit => ListenerBodiesClimb(f);
    case DestroyListener => ListenerBodiesClimb(f);
    case ClientDestructor => ClientBodiesClimb(f);
    case RegisterClient => ClientBodiesClimb(f);
    case UnregisterClient => ClientBodiesClimb(f);
    case CalloutTurn => CalloutTurnClimbs();
    case CalloutDestroy => CalloutBodiesClimb(f);
    case GetBrightness => CalloutBodiesClimb(f);
    case OnInput => TracedBodiesClimb(f);
    case EvdevDestroy => TracedBodiesClimb(f);
    case GetPowerMode => TracedBodiesClimb(f);
    case DebugSysctl => TracedBodiesClimb(f);
    case _ => LeafBodiesClimb(f);
  }

  /** The section occurs in some function. */
  predicate OfModule(s: Section) {
    exists f: Function :: s in Body(f)
  }

  predicate AllOfModule(sections: seq<Section>) {
    forall i :: 0 <= i < |sections| ==> OfModule(sections[i])
  }

  lemma SectionsAreInOrder(sections: seq<Section>)
    requires AllOfModule(sections)
    ensures InOrder([], Flatten(sections, []))
  {
    forall i | 0 <= i < |sections|
      ensures 0 < Rank(sections[i].l) && Climbing(sections[i].inner, Rank(sections[i].l))
    {
      var f: Function :| sections[i] in Body(f);
      BodiesClimb(f);
    }
    ClimbingIsInOrder([], sections, 0, []);
  }

  /** Any number of threads, each running any sections of these functions in any order any number of
      times - so with any function called in the unlocked gaps of any other - are never in a
      circular wait, and never all stuck. */
  lemma ModuleNeverDeadlocks(threads: seq<Thread>, sections: seq<seq<Section>>, chain: seq<nat>)
    requires |sections| == |threads|
    requires forall i :: 0 <= i < |threads| ==> AllOfModule(sections[i]) && threads[i].script == Flatten(sections[i], [])
    ensures Chain(threads, chain) && |chain| >= 2 ==> chain[0] != chain[|chain| - 1]
    ensures (exists i :: 0 <= i < |threads| && !threads[i].Finished()) ==>
              exists i :: 0 <= i < |threads| && CanStep(threads, i)
  {
    forall i | 0 <= i < |threads|
      ensures InOrder([], threads[i].script)
    {
      SectionsAreInOrder(sections[i]);
    }
    if Chain(threads, chain) && |chain| >= 2 {
      NoCircularWait(threads, chain);
    }
    if exists i :: 0 <= i < |threads| && !threads[i].Finished() {
      SomeThreadCanStep(threads);
    }
  }

  // ----- Schedules

  predicate LegalSchedule(threads: seq<Thread>, schedule: seq<nat>)
    decreases |schedule|
  {
    schedule == [] ||
    (schedule[0] < |threads| && CanStep(threads, schedule[0]) &&
     LegalSchedule(Step(threads, schedule[0]), schedule[1..]))
  }

  function After(threads: seq<Thread>, schedule: seq<nat>): (after: seq<Thread>)
    requires LegalSchedule(threads, schedule)
    ensures |after| == |threads|
    decreases |schedule|
  {
    if schedule == [] then threads else After(Step(threads, schedule[0]), schedule[1..])
  }

  /** With all scripts in order, every unfinished thread can be brought to its next step by
      scheduling others only. */
  lemma {:induction false} EveryThreadGetsItsTurn(threads: seq<Thread>, j: nat) returns (schedule: seq<nat>)
    requires AllInOrder(threads) && j < |threads| && !threads[j].Finished()
    ensures LegalSchedule(threads, schedule)
    ensures After(threads, schedule)[j] == threads[j] && CanStep(After(threads, schedule), j)
    decreases Left(threads)
  {
    if CanStep(threads, j) {
      schedule := [];
    } else {
      SomeThreadCanStep(threads);
      var i :| 0 <= i < |threads| && CanStep(threads, i);
      StepsComeToAnEnd(threads, i);
      var rest := EveryThreadGetsItsTurn(Step(threads, i), j);
      ScheduleCons(threads, i, rest);
      schedule := [i] + rest;
    }
  }

  lemma ScheduleCons(threads: seq<Thread>, i: nat, rest: seq<nat>)
    requires i < |threads| && CanStep(threads, i) && LegalSchedule(Step(threads, i), rest)
    ensures LegalSchedule(threads, [i] + rest) && After(threads, [i] + rest) == After(Step(threads, i), rest)
  {
    assert ([i] + rest)[1..] == rest;
  }

  // ----- Locks exclude

  lemma {:induction false} HeldSnoc(held: seq<Hold>, script: Script, op: Op)
    ensures HeldAll(held, script + [op]) == HeldAfter(HeldAll(held, script), op)
    decreases |script|
  {
    if script == [] {
      assert [op][1..] == [] && script + [op] == [op];
    } else {
      assert (script + [op])[0] == script[0] && (script + [op])[1..] == script[1..] + [op];
      HeldSnoc(HeldAfter(held, script[0]), script[1..], op);
    }
  }

  /** One more step of a thread is one more operation on what it holds. */
  lemma HeldNext(t: Thread)
    requires !t.Finished()
    ensures t.(pc := t.pc + 1).Held() == HeldAfter(t.Held(), t.Next())
  {
    assert t.script[..t.pc + 1] == t.script[..t.pc] + [t.Next()];
    HeldSnoc([], t.script[..t.pc], t.Next());
    if t.pc + 1 == |t.script| {
      assert t.script[..t.pc + 1] == t.script;
    }
  }

  predicate IsHeldAs(held: seq<Hold>, h: Hold) {
    exists i :: 0 <= i < |held| && held[i] == h
  }

  lemma {:induction false} WithoutHoldsLess(held: seq<Hold>, l: Lock, h: Hold)
    requires IsHeldAs(Without(held, l), h)
    ensures IsHeldAs(held, h)
  {
    if held == [] {
    } else if held[0].l == l {
      var i :| 0 <= i < |held[1..]| && held[1..][i] == h;
      assert held[i + 1] == h;
    } else if held[0] != h {
      var rest := Without(held[1..], l);
      var i :| 0 <= i < |[held[0]] + rest| && ([held[0]] + rest)[i] == h;
      assert rest[i - 1] == h;
      WithoutHoldsLess(held[1..], l, h);
      var j :| 0 <= j < |held[1..]| && held[1..][j] == h;
      assert held[j + 1] == h;
    }
  }

  /** A lock that is newly held after an operation is the one the operation takes, as it takes it. */
  lemma NewlyHeld(held: seq<Hold>, op: Op, h: Hold)
    requires IsHeldAs(HeldAfter(held, op), h)
    ensures IsHeldAs(held, h) || op == (if h.shared then AcquireShared(h.l) else Acquire(h.l))
  {
    match op
    case Release(l) => WithoutHoldsLess(held, l, h);
    case Acquire(l) =>
      var i :| 0 <= i < |[Hold(l, false)] + held| && ([Hold(l, false)] + held)[i] == h;
      if i > 0 {
        assert held[i - 1] == h;
      }
    case AcquireShared(l) =>
      var i :| 0 <= i < |[Hold(l, true)] + held| && ([Hold(l, true)] + held)[i] == h;
      if i > 0 {
        assert held[i - 1] == h;
      }
  }

  predicate HoldsAs(t: Thread, l: Lock, shared: bool) {
    IsHeldAs(t.Held(), Hold(l, shared))
  }

  /** Thread i has a lock for itself, and thread j has it too. */
  predicate Clash(threads: seq<Thread>, i: nat, j: nat, l: Lock, shared: bool) {
    i < |threads| && j < |threads| && i != j && HoldsAs(threads[i], l, false) && HoldsAs(threads[j], l, shared)
  }

  ghost predicate NoClash(threads: seq<Thread>) {
    forall i: nat, j: nat, l, shared :: !Clash(threads, i, j, l, shared)
  }

  lemma StepKeepsNoClash(threads: seq<Thread>, k: nat)
    requires NoClash(threads) && k < |threads| && CanStep(threads, k)
    ensures NoClash(Step(threads, k))
  {
    var after := Step(threads, k);
    HeldNext(threads[k]);
    forall i: nat, j: nat, l, shared
      ensures !Clash(after, i, j, l, shared)
    {
      if Clash(after, i, j, l, shared) {
        assert !Clash(threads, i, j, l, shared);
        if k == i {
          NewlyHeld(threads[k].Held(), threads[k].Next(), Hold(l, false));
        } else {
          NewlyHeld(threads[k].Held(), threads[k].Next(), Hold(l, shared));
        }
      }
    }
  }

  /** Whatever the scripts, in order or not: from a start at which nothing is held, no schedule makes
      two threads hold a lock that one of them holds exclusively. */
  lemma {:induction false} LocksExclude(threads: seq<Thread>, schedule: seq<nat>)
    requires NoClash(threads) && LegalSchedule(threads, schedule)
    ensures NoClash(After(threads, schedule))
    decreases |schedule|
  {
    if schedule == [] {
    } else {
      StepKeepsNoClash(threads, schedule[0]);
      LocksExclude(Step(threads, schedule[0]), schedule[1..]);
    }
  }

  lemma NothingHeldAtFirst(threads: seq<Thread>)
    requires forall i :: 0 <= i < |threads| ==> threads[i].pc == 0
    ensures NoClash(threads)
  {
    forall i | 0 <= i < |threads|
      ensures threads[i].Held() == []
    {
      assert threads[i].script[..0] == [];
    }
  }

  // ----- The one function that is not in order

  /** The battery states the module knows, from the ACPI Specification's _BST (Battery Status). */
  const DISCHARGING: uint32 := 1
  const CHARGING: uint32 := 2
  const CRITICAL: uint32 := 4

  predicate Recognised(state: uint32) {
    state == 0 || state == DISCHARGING || state == CHARGING || state == CRITICAL
  }

  /** `framework_pwr_loadbattinfo`: the default branch of its switch returns at once. */
  function LoadBatteryInfo(state: uint32): Script {
    var leave := Flatten([TRACE], [Release(PowerState)]);
    [Acquire(PowerState)] +
    if state == 0 then leave
    else if state == CRITICAL || state == DISCHARGING then leave
    else if state == CHARGING then leave
    else []
  }

  /** `framework_pwr_getpowermode`: reads the mode unless loading failed. */
  function ReadPowerMode(state: uint32): Script {
    LoadBatteryInfo(state) + if Recognised(state) then Flatten([In(PowerState, [])], []) else []
  }

  lemma LoadIsASection(state: uint32, rest: Script)
    requires Recognised(state) && InOrder([], rest)
    ensures LoadBatteryInfo(state) + rest == Flatten([In(PowerState, [TRACE])], rest)
    ensures InOrder([], LoadBatteryInfo(state) + rest)
  {
    var none: seq<Section> := [];
    assert Climbing(none, 10);
    SectionClimbs(TRACE, 8);
    SectionClimbs(In(PowerState, [TRACE]), 0);
    ClimbingIsInOrder([], [In(PowerState, [TRACE])], 0, rest);
    LoadScript(state, rest);
  }

  lemma TraceScript(rest: Script)
    ensures Flatten([TRACE], rest) == [Acquire(Sysctl), Release(Sysctl)] + rest
  {
    assert [TRACE][1..] == [];
    assert Flatten(TRACE.inner, [Release(Sysctl)] + rest) == [Release(Sysctl)] + rest;
  }

  lemma LoadScript(state: uint32, rest: Script)
    requires Recognised(state)
    ensures LoadBatteryInfo(state) + rest == Flatten([In(PowerState, [TRACE])], rest)
  {
    var section := [In(PowerState, [TRACE])];
    assert section[1..] == [];
    TraceScript([Release(PowerState)]);
    TraceScript([Release(PowerState)] + rest);
    var debug := [Acquire(Sysctl), Release(Sysctl)];
    assert LoadBatteryInfo(state) == [Acquire(PowerState)] + (debug + [Release(PowerState)]);
    assert Flatten(section, rest) == [Acquire(PowerState)] + (debug + ([Release(PowerState)] + rest));
  }

  /** For a recognised state this is the function as it stands among the others. */
  lemma ReadPowerModeIsBody(state: uint32)
    requires Recognised(state)
    ensures ReadPowerMode(state) == Flatten(Body(GetPowerMode), [])
  {
    var first, second := In(PowerState, [TRACE]), In(PowerState, []);
    var last := Flatten([second], []);
    assert [first, second][1..] == [second];
    assert Flatten([TRACE], [Release(PowerState)] + last) == Flatten([TRACE], [Release(PowerState)]) + last;
  }

  /** Every lock is given back exactly if the battery state is a recognised one, ... */
  lemma BatteryInfoInOrderIff(state: uint32)
    ensures InOrder([], LoadBatteryInfo(state)) <==> Recognised(state)
    ensures InOrder([], ReadPowerMode(state)) <==> Recognised(state)
    ensures Recognised(state) <==> state == 0 || state == 1 || state == 2 || state == 4
  {
    if Recognised(state) {
      var none: seq<Section> := [];
      assert Climbing(none, 8);
      SectionClimbs(In(PowerState, []), 0);
      ClimbingIsInOrder([], [In(PowerState, [])], 0, []);
      LoadIsASection(state, Flatten([In(PowerState, [])], []));
      LoadIsASection(state, []);
      assert LoadBatteryInfo(state) + [] == LoadBatteryInfo(state);
    } else {
      assert ReadPowerMode(state) == LoadBatteryInfo(state) == [Acquire(PowerState)];
      assert [Acquire(PowerState)][1..] == [];
      assert HeldAfter([], Acquire(PowerState)) != [];
    }
  }

  lemma {:induction false} WithoutKeepsLast(held: seq<Hold>, last: Hold, l: Lock)
    requires IsHeld(held, l)
    ensures Without(held + [last], l) == Without(held, l) + [last]
  {
    assert (held + [last])[1..] == held[1..] + [last];
    if held[0].l == l {
    } else {
      assert IsHeld(held[1..], l) by {
        var i :| 0 <= i < |held| && held[i].l == l;
        assert held[1..][i - 1].l == l;
      }
      WithoutKeepsLast(held[1..], last, l);
    }
  }

  /** A script in order leaves alone what was held before it. */
  lemma {:induction false} OlderHoldStays(held: seq<Hold>, below: Hold, script: Script, n: nat)
    requires InOrder(held, script) && n <= |script|
    ensures HeldAll(held + [below], script[..n]) == HeldAll(held, script[..n]) + [below]
    decreases n
  {
    if n == 0 {
    } else {
      var op := script[0];
      match op {
        case Acquire(l) => assert [Hold(l, false)] + (held + [below]) == ([Hold(l, false)] + held) + [below];
        case AcquireShared(l) => assert [Hold(l, true)] + (held + [below]) == ([Hold(l, true)] + held) + [below];
        case Release(l) => WithoutKeepsLast(held, below, l);
      }
      assert script[..n][1..] == script[1..][..n - 1];
      OlderHoldStays(HeldAfter(held, op), below, script[1..], n - 1);
    }
  }

  /** A thread that has loaded an unrecognised state holds the power lock whatever it does next. */
  lemma LoaderKeepsLock(t: Thread, state: uint32, rest: Script)
    requires !Recognised(state) && InOrder([], rest)
    requires t.script == LoadBatteryInfo(state) + rest && t.pc >= 1
    ensures Holds(t, PowerState)
  {
    var n := if t.Finished() then |rest| else t.pc - 1;
    var run := if t.Finished() then t.script else t.script[..t.pc];
    assert t.script == [Acquire(PowerState)] + rest;
    if t.Finished() {
      assert rest[..n] == rest;
    } else {
      assert t.script[..t.pc] == [Acquire(PowerState)] + rest[..n];
    }
    assert run == [Acquire(PowerState)] + rest[..n];
    assert run[0] == Acquire(PowerState) && run[1..] == rest[..n];
    var lost := Hold(PowerState, false);
    assert HeldAfter([], Acquire(PowerState)) == [] + [lost];
    OlderHoldStays([], lost, rest, n);
    assert t.Held() == HeldAll([], rest[..n]) + [lost];
    assert t.Held()[|t.Held()| - 1].l == PowerState;
  }

  lemma {:induction false} LockStaysLost(threads: seq<Thread>, i: nat, state: uint32, rest: Script, schedule: seq<nat>)
    requires i < |threads| && threads[i].script == LoadBatteryInfo(state) + rest && threads[i].pc >= 1
    requires !Recognised(state) && InOrder([], rest) && LegalSchedule(threads, schedule)
    ensures Holds(After(threads, schedule)[i], PowerState)
    decreases |schedule|
  {
    if schedule == [] {
      LoaderKeepsLock(threads[i], state, rest);
    } else {
      LockStaysLost(Step(threads, schedule[0]), i, state, rest, schedule[1..]);
    }
  }

  /** Thread i has loaded the battery state and goes on with anything that is in order, as all other
      threads do. A thread that asks for the power lock, thread i included, gets it under some
      schedule exactly if the state was recognised; otherwise it is blocked under every schedule. */
  lemma PowerLockIsGivenBackIff(threads: seq<Thread>, i: nat, state: uint32, rest: Script, j: nat)
    requires i < |threads| && threads[i] == Thread(LoadBatteryInfo(state) + rest, |LoadBatteryInfo(state)|)
    requires InOrder([], rest) && forall k :: 0 <= k < |threads| && k != i ==> InOrder([], threads[k].script)
    requires j < |threads| && WantsExclusively(threads[j], PowerState)
    ensures (exists schedule ::
               LegalSchedule(threads, schedule)
               && After(threads, schedule)[j] == threads[j] && CanStep(After(threads, schedule), j))
            <==> Recognised(state)
  {
    if Recognised(state) {
      LoadIsASection(state, rest);
      var schedule := EveryThreadGetsItsTurn(threads, j);
      assert LegalSchedule(threads, schedule);
    } else {
      forall schedule | LegalSchedule(threads, schedule) && After(threads, schedule)[j] == threads[j]
        ensures !CanStep(After(threads, schedule), j)
      {
        LockStaysLost(threads, i, state, rest, schedule);
      }
    }
  }

  /** The same for threads that come to ask only later: no schedule lets any thread take it. */
  lemma UnidentifiedBatteryBlocks(threads: seq<Thread>, i: nat, state: uint32, rest: Script, schedule: seq<nat>, j: nat)
    requires i < |threads| && threads[i].script == LoadBatteryInfo(state) + rest && threads[i].pc >= 1
    requires !Recognised(state) && InOrder([], rest) && LegalSchedule(threads, schedule)
    requires j < |threads| && WantsExclusively(After(threads, schedule)[j], PowerState)
    ensures !CanStep(After(threads, schedule), j)
  {
    LockStaysLost(threads, i, state, rest, schedule);
  }
}
