/** kmod/framework_screen.c under concurrency: N listener threads press brightness keys on one
    configuration. A press reads the level in one locked section and writes in a second one, and
    any other section may run in between. */
module ScreenListeners {
  import opened MachineIntegers
  import opened Screen

  /** What a listener that has read the level is about to write. */
  datatype Pending = Nothing | Add | Cap | Subtract | Zero

  datatype State = State(high: uint32, listeners: seq<Pending>)

  /** The locked sections, one event each. */
  datatype Event =
    | ReadForUp(i: nat)
    | ReadForDown(i: nat)
    | Write(i: nat)
    | Sysctl(value: uint32)

  function Decide(high: uint32, up: bool): Pending {
    if up then
      if high == MAX_BRIGHTNESS then Nothing
      else if Wrap32(high + INCREMENT) > MAX_BRIGHTNESS then Cap
      else Add
    else
      if high == 0 then Nothing
      else if INCREMENT > high then Zero
      else Subtract
  }

  function Written(high: uint32, pending: Pending): uint32 {
    match pending
    case Nothing => high
    case Add => Wrap32(high + INCREMENT)
    case Cap => MAX_BRIGHTNESS
    case Subtract => Wrap32(high - INCREMENT)
    case Zero => 0
  }

  /** A listener handles one key at a time, so it reads only with nothing left to write. */
  predicate Enabled(s: State, e: Event) {
    match e
    case ReadForUp(i) => i < |s.listeners| && s.listeners[i] == Nothing
    case ReadForDown(i) => i < |s.listeners| && s.listeners[i] == Nothing
    case Write(i) => i < |s.listeners|
    case Sysctl(_) => true
  }

  function Step(s: State, e: Event): State
    requires Enabled(s, e)
  {
    match e
    case ReadForUp(i) => s.(listeners := s.listeners[i := Decide(s.high, true)])
    case ReadForDown(i) => s.(listeners := s.listeners[i := Decide(s.high, false)])
    case Write(i) => State(Written(s.high, s.listeners[i]), s.listeners[i := Nothing])
    case Sysctl(v) => if v <= MAX_BRIGHTNESS then s.(high := v) else s
  }

  predicate Legal(s: State, events: seq<Event>)
    decreases |events|
  {
    events == [] || (Enabled(s, events[0]) && Legal(Step(s, events[0]), events[1..]))
  }

  function Run(s: State, events: seq<Event>): State
    requires Legal(s, events)
    decreases |events|
  {
    if events == [] then s else Run(Step(s, events[0]), events[1..])
  }

  lemma RunCons(s: State, e: Event, rest: seq<Event>)
    requires Enabled(s, e) && Legal(Step(s, e), rest)
    ensures Legal(s, [e] + rest) && Run(s, [e] + rest) == Run(Step(s, e), rest)
  {
    assert ([e] + rest)[1..] == rest;
  }

  function Idle(n: nat): seq<Pending> {
    seq(n, _ => Nothing)
  }

  /** The same sections as atomic steps on shared fields. */
  class SharedScreen {
    var high: uint32
    const listeners: array<Pending>

    function View(): State
      reads this, listeners
    {
      State(high, listeners[..])
    }

    constructor (n: nat, high: uint32)
      ensures View() == State(high, Idle(n)) && fresh(listeners)
    {
      this.high := high;
      listeners := new Pending[n](_ => Nothing);
    }

    /** First locked section and the decision taken after it. */
    method Read(i: nat, up: bool)
      requires Enabled(View(), if up then ReadForUp(i) else ReadForDown(i))
      modifies listeners
      ensures View() == Step(old(View()), if up then ReadForUp(i) else ReadForDown(i))
    {
      var brightness := high;
      if !up {
        if brightness == 0 {
          listeners[i] := Nothing;
        } else if INCREMENT > brightness {
          listeners[i] := Zero;
        } else {
          listeners[i] := Subtract;
        }
      } else if brightness == 100 {
        listeners[i] := Nothing;
      } else if Wrap32(brightness + INCREMENT) > 100 {
        listeners[i] := Cap;
      } else {
        listeners[i] := Add;
      }
    }

    /** Second locked section: the write works on the level as it is now. */
    method Write(i: nat)
      requires Enabled(View(), Event.Write(i))
      modifies this, listeners
      ensures View() == Step(old(View()), Event.Write(i))
    {
      match listeners[i] {
        case Nothing =>
        case Add => high := Wrap32(high + INCREMENT);
        case Cap => high := 100;
        case Subtract => high := Wrap32(high - INCREMENT);
        case Zero => high := 0;
      }
      listeners[i] := Nothing;
    }

    /** The sysctl handler's write. */
    method Store(value: uint32)
      modifies this`high
      ensures View() == Step(old(View()), Sysctl(value))
    {
      if value <= 100 {
        high := value;
      }
    }

    /** Any interleaving of the sections, played on the object. */
    method Drive(events: seq<Event>)
      requires Legal(View(), events)
      modifies this, listeners
      ensures View() == Run(old(View()), events)
    {
      ghost var end := Run(View(), events);
      var i := 0;
      assert events[0..] == events;
      while i < |events|
        invariant 0 <= i <= |events|
        invariant Legal(View(), events[i..]) && Run(View(), events[i..]) == end
      {
        assert events[i..][0] == events[i] && events[i..][1..] == events[i + 1..];
        match events[i] {
          case ReadForUp(k) => Read(k, true);
          case ReadForDown(k) => Read(k, false);
          case Write(k) => Write(k);
          case Sysctl(value) => Store(value);
        }
        i := i + 1;
      }
    }
  }

  /** N listeners from the start on: the bounds, on the fields of the object. */
  method PlayListeners(n: nat, high: uint32, events: seq<Event>) returns (screen: SharedScreen)
    requires high <= MAX_BRIGHTNESS && 110 + 10 * n < TWO_TO_THE_32 && Legal(State(high, Idle(n)), events)
    ensures screen.View() == Run(State(high, Idle(n)), events)
    ensures n > 0 && OnlyUp(events) ==> screen.high <= 100 + 10 * (n - 1)
    ensures OnlyUpAndSysctl(events) ==> screen.high <= 100 + 10 * n
    ensures n <= 1 && OnlyPresses(events) ==> screen.high <= 100
  {
    screen := new SharedScreen(n, high);
    screen.Drive(events);
    if n > 0 && OnlyUp(events) {
      UpPressesBound(n, high, events);
    }
    if OnlyUpAndSysctl(events) {
      UpPressesAndSysctlBound(n, high, events);
    }
    if n <= 1 && OnlyPresses(events) {
      StaysRight(State(high, Idle(n)), events);
    }
  }

  // ----- Overshoot bounds

  function PendingAdds(listeners: seq<Pending>): (n: nat)
    ensures n <= |listeners|
  {
    if listeners == [] then 0
    else (if listeners[0] == Add then 1 else 0) + PendingAdds(listeners[1..])
  }

  lemma {:induction false} PendingAddsUpdate(listeners: seq<Pending>, i: nat, p: Pending)
    requires i < |listeners|
    ensures PendingAdds(listeners[i := p]) - (if p == Add then 1 else 0)
         == PendingAdds(listeners) - (if listeners[i] == Add then 1 else 0)
  {
    if i == 0 {
      assert listeners[i := p][1..] == listeners[1..];
    } else {
      assert listeners[i := p][1..] == listeners[1..][i - 1 := p];
      PendingAddsUpdate(listeners[1..], i - 1, p);
    }
  }

  /** A listener that is not about to add leaves at most N-1 pending adds. */
  lemma {:induction false} PendingAddsBelow(listeners: seq<Pending>, i: nat)
    requires i < |listeners| && listeners[i] != Add
    ensures PendingAdds(listeners) <= |listeners| - 1
  {
    if i == 0 {
    } else {
      PendingAddsBelow(listeners[1..], i - 1);
    }
  }

  lemma {:induction false} NoPendingAdds(n: nat)
    ensures PendingAdds(Idle(n)) == 0
  {
    if n == 0 {
    } else {
      assert Idle(n)[1..] == Idle(n - 1);
      NoPendingAdds(n - 1);
    }
  }

  predicate OnlyUp(events: seq<Event>) {
    forall e <- events :: e.ReadForUp? || e.Write?
  }

  predicate OnlyUpAndSysctl(events: seq<Event>) {
    forall e <- events :: !e.ReadForDown?
  }

  predicate NoneGoingDown(s: State) {
    forall i :: 0 <= i < |s.listeners| ==> s.listeners[i] != Subtract && s.listeners[i] != Zero
  }

  /** `high + 10 * pendingAdds` never exceeds the limit. */
  ghost predicate Within(s: State, limit: int) {
    NoneGoingDown(s) && s.high + 10 * PendingAdds(s.listeners) <= limit
  }

  lemma StepWithin(s: State, e: Event, limit: int)
    requires Enabled(s, e) && Within(s, limit) && !e.ReadForDown?
    requires 100 + 10 * (|s.listeners| - 1) <= limit < TWO_TO_THE_32 - 10
    requires e.Sysctl? ==> limit >= 100 + 10 * |s.listeners|
    ensures Within(Step(s, e), limit) && |Step(s, e).listeners| == |s.listeners|
  {
    match e
    case ReadForUp(i) =>
      PendingAddsUpdate(s.listeners, i, Decide(s.high, true));
      PendingAddsBelow(s.listeners, i);
    case Write(i) =>
      PendingAddsUpdate(s.listeners, i, Nothing);
      PendingAddsBelow(s.listeners[i := Nothing], i);
    case Sysctl(_) =>
  }

  lemma {:induction false} RunWithin(s: State, events: seq<Event>, limit: int)
    requires Legal(s, events) && Within(s, limit) && OnlyUpAndSysctl(events)
    requires 100 + 10 * (|s.listeners| - 1) <= limit < TWO_TO_THE_32 - 10
    requires !OnlyUp(events) ==> limit >= 100 + 10 * |s.listeners|
    ensures Within(Run(s, events), limit)
    decreases |events|
  {
    if events == [] {
    } else {
      assert events[0] in events;
      StepWithin(s, events[0], limit);
      assert !OnlyUp(events[1..]) ==> !OnlyUp(events);
      RunWithin(Step(s, events[0]), events[1..], limit);
    }
  }

  /** N listeners that only press brightness-up overshoot 100 by at most 10 for every other
      listener, in every interleaving. (The level must not reach the end of `uint32_t`, which
      takes more than 400 million threads.) */
  lemma UpPressesBound(n: nat, high: uint32, events: seq<Event>)
    requires n > 0 && high <= MAX_BRIGHTNESS && 100 + 10 * n < TWO_TO_THE_32
    requires Legal(State(high, Idle(n)), events) && OnlyUp(events)
    ensures Run(State(high, Idle(n)), events).high <= 100 + 10 * (n - 1)
  {
    NoPendingAdds(n);
    RunWithin(State(high, Idle(n)), events, 100 + 10 * (n - 1));
  }

  /** Sysctl writes in between raise the bound by one more increment. */
  lemma UpPressesAndSysctlBound(n: nat, high: uint32, events: seq<Event>)
    requires high <= MAX_BRIGHTNESS && 110 + 10 * n < TWO_TO_THE_32
    requires Legal(State(high, Idle(n)), events) && OnlyUpAndSysctl(events)
    ensures Run(State(high, Idle(n)), events).high <= 100 + 10 * n
  {
    NoPendingAdds(n);
    RunWithin(State(high, Idle(n)), events, 100 + 10 * n);
  }

  // ----- The bounds are reached

  function Adding(k: nat, n: nat): seq<Pending>
    requires k <= n
  {
    seq(n, i => if i < k then Add else Nothing)
  }

  /** Listeners k, k+1, ..., n-1 in turn. */
  function ReadFrom(k: nat, n: nat): seq<Event>
    requires k <= n
    decreases n - k
  {
    if k == n then [] else [ReadForUp(k)] + ReadFrom(k + 1, n)
  }

  /** Listeners n-1, ..., 0 in turn. */
  function WriteDown(n: nat): seq<Event> {
    if n == 0 then [] else [Event.Write(n - 1)] + WriteDown(n - 1)
  }

  lemma {:induction false} AllRead(k: nat, n: nat, rest: seq<Event>)
    requires k <= n && Legal(State(90, Adding(n, n)), rest)
    ensures Legal(State(90, Adding(k, n)), ReadFrom(k, n) + rest)
    ensures Run(State(90, Adding(k, n)), ReadFrom(k, n) + rest) == Run(State(90, Adding(n, n)), rest)
    decreases n - k
  {
    if k == n {
      assert ReadFrom(k, n) + rest == rest;
    } else {
      var s := State(90, Adding(k, n));
      assert Step(s, ReadForUp(k)) == State(90, Adding(k + 1, n));
      AllRead(k + 1, n, rest);
      RunCons(s, ReadForUp(k), ReadFrom(k + 1, n) + rest);
      assert ReadFrom(k, n) + rest == [ReadForUp(k)] + (ReadFrom(k + 1, n) + rest);
    }
  }

  lemma OneLessAdding(k: nat, n: nat)
    requires 0 < k <= n
    ensures Adding(k, n)[k - 1 := Nothing] == Adding(k - 1, n)
  {
  }

  lemma {:induction false} AllWrite(high: uint32, k: nat, n: nat)
    requires k <= n && high + 10 * k < TWO_TO_THE_32
    ensures Legal(State(high, Adding(k, n)), WriteDown(k))
    ensures Run(State(high, Adding(k, n)), WriteDown(k)).high == high + 10 * k
    decreases k
  {
    if k == 0 {
    } else {
      var s := State(high, Adding(k, n));
      OneLessAdding(k, n);
      assert s.listeners[k - 1] == Add && Wrap32(high + 10) == high + 10;
      assert Step(s, Event.Write(k - 1)) == State(high + 10, Adding(k - 1, n));
      AllWrite(high + 10, k - 1, n);
      RunCons(s, Event.Write(k - 1), WriteDown(k - 1));
    }
  }

  /** Both bounds are the best possible: everybody reads 90, then everybody writes. */
  lemma BoundsAreReached(n: nat)
    requires n > 0 && 100 + 10 * n < TWO_TO_THE_32
    ensures var start := State(90, Idle(n));
            exists events :: Legal(start, events) && OnlyUp(events) && Run(start, events).high == 100 + 10 * (n - 1)
    ensures var start := State(90, Idle(n));
            exists events :: Legal(start, events) && OnlyUpAndSysctl(events) && Run(start, events).high == 100 + 10 * n
  {
    var start := State(90, Idle(n));
    assert Idle(n) == Adding(0, n);
    ReadFromOnlyUp(0, n);
    WriteDownOnlyUp(n);
    AllWrite(90, n, n);
    AllRead(0, n, WriteDown(n));
    assert OnlyUp(ReadFrom(0, n) + WriteDown(n));
    var rest := [Sysctl(100)] + WriteDown(n);
    AllWrite(100, n, n);
    RunCons(State(90, Adding(n, n)), Sysctl(100), WriteDown(n));
    AllRead(0, n, rest);
    assert OnlyUpAndSysctl(ReadFrom(0, n) + rest);
  }

  lemma {:induction false} ReadFromOnlyUp(k: nat, n: nat)
    requires k <= n
    ensures OnlyUp(ReadFrom(k, n))
    decreases n - k
  {
    if k == n {
    } else {
      ReadFromOnlyUp(k + 1, n);
    }
  }

  lemma {:induction false} WriteDownOnlyUp(n: nat)
    ensures OnlyUp(WriteDown(n))
  {
    if n == 0 {
    } else {
      WriteDownOnlyUp(n - 1);
    }
  }

  // ----- Undisturbed presses, and why the bound is for presses in one direction only

  /** A press whose two sections run back to back is the serial change of the level. */
  lemma UndisturbedPress(s: State, i: nat, up: bool)
    requires i < |s.listeners| && s.listeners[i] == Nothing
    ensures var read := if up then ReadForUp(i) else ReadForDown(i);
            Legal(s, [read, Event.Write(i)])
            && Run(s, [read, Event.Write(i)]) == s.(high := Changed(s.high, Relative(up)))
  {
    var read := if up then ReadForUp(i) else ReadForDown(i);
    var s1 := Step(s, read);
    RunCons(s1, Event.Write(i), []);
    RunCons(s, read, [Event.Write(i)]);
    assert [Event.Write(i)] + [] == [Event.Write(i)] && [read] + [Event.Write(i)] == [read, Event.Write(i)];
    assert s.listeners[i := Decide(s.high, up)][i := Nothing] == s.listeners;
    WrittenIsChanged(s.high, up);
  }

  function Relative(up: bool): int {
    if up then 10 else -10
  }

  lemma WrittenIsChanged(high: uint32, up: bool)
    ensures Written(high, Decide(high, up)) == Changed(high, Relative(up))
  {
  }

  /** A press overtaken by a sysctl write: what is left of the write depends on the level that was
      read before it. A change read as possible is made on top of it, a capped one replaces it, and a
      refused one leaves it. */
  lemma OvertakenPress(s: State, i: nat, up: bool, value: uint32)
    requires i < |s.listeners| && s.listeners[i] == Nothing && s.high <= 100 && value <= 100
    ensures var events := [if up then ReadForUp(i) else ReadForDown(i), Sysctl(value), Event.Write(i)];
            && Legal(s, events) && Run(s, events).listeners == s.listeners
            && Run(s, events).high ==
               if up then (if s.high == 100 then value else if s.high > 90 then 100 else value + 10)
               else (if s.high == 0 then value else if s.high < 10 then 0 else Wrap32(value - 10))
  {
    var read := if up then ReadForUp(i) else ReadForDown(i);
    var s1 := Step(s, read);
    var s2 := Step(s1, Sysctl(value));
    RunCons(s2, Event.Write(i), []);
    RunCons(s1, Sysctl(value), [Event.Write(i)] + []);
    RunCons(s, read, [Sysctl(value)] + ([Event.Write(i)] + []));
    assert [read] + ([Sysctl(value)] + ([Event.Write(i)] + [])) == [read, Sysctl(value), Event.Write(i)];
    assert s.listeners[i := Decide(s.high, up)][i := Nothing] == s.listeners;
  }

  /** A refused sysctl write changes nothing, at any point. */
  lemma RefusedSysctl(s: State, value: uint32)
    requires value > 100
    ensures Step(s, Sysctl(value)) == s
  {
  }

  // ----- When presses keep the level in 0..100

  predicate OnlyDown(events: seq<Event>) {
    forall e <- events :: e.ReadForDown? || e.Write?
  }

  predicate OnlyPresses(events: seq<Event>) {
    forall e <- events :: !e.Sysctl?
  }

  /** Some run of n listeners from a level ends above 100. */
  ghost predicate CanLeaveRange(n: nat, high: uint32, allowed: seq<Event> -> bool) {
    exists events ::
      Legal(State(high, Idle(n)), events) && allowed(events) && Run(State(high, Idle(n)), events).high > MAX_BRIGHTNESS
  }

  lemma {:induction false} RunAppend(s: State, a: seq<Event>, b: seq<Event>)
    requires Legal(s, a) && Legal(Run(s, a), b)
    ensures Legal(s, a + b) && Run(s, a + b) == Run(Run(s, a), b)
    decreases |a|
  {
    if a == [] {
      assert a + b == b;
    } else {
      RunAppend(Step(s, a[0]), a[1..], b);
      RunCons(s, a[0], a[1..] + b);
      assert a + b == [a[0]] + (a[1..] + b);
    }
  }

  /** Below the increment a "down" press can only set the level to 0. */
  predicate TooLowToSubtract(s: State) {
    s.high < INCREMENT && forall i :: 0 <= i < |s.listeners| ==> s.listeners[i] == Nothing || s.listeners[i] == Zero
  }

  lemma {:induction false} StaysTooLow(s: State, events: seq<Event>)
    requires Legal(s, events) && OnlyDown(events) && TooLowToSubtract(s)
    ensures TooLowToSubtract(Run(s, events))
    decreases |events|
  {
    if events == [] {
    } else {
      assert events[0] in events;
      StaysTooLow(Step(s, events[0]), events[1..]);
    }
  }

  /** A single listener's pending write is still right when it is made. */
  predicate PendingIsRight(s: State) {
    && |s.listeners| <= 1
    && s.high <= MAX_BRIGHTNESS
    && (forall i :: 0 <= i < |s.listeners| ==>
          (s.listeners[i] == Subtract ==> s.high >= INCREMENT) &&
          (s.listeners[i] == Add ==> s.high + INCREMENT <= MAX_BRIGHTNESS))
  }

  lemma {:induction false} StaysRight(s: State, events: seq<Event>)
    requires Legal(s, events) && OnlyPresses(events) && PendingIsRight(s)
    ensures PendingIsRight(Run(s, events))
    decreases |events|
  {
    if events == [] {
    } else {
      assert events[0] in events;
      StaysRight(Step(s, events[0]), events[1..]);
    }
  }

  /** Two listeners read the same level in 10..19; the second subtraction wraps. */
  lemma DownPressesWrap(n: nat, high: uint32) returns (events: seq<Event>)
    requires n >= 2 && 10 <= high < 20
    ensures Legal(State(high, Idle(n)), events) && OnlyDown(events)
    ensures Run(State(high, Idle(n)), events).high == TWO_TO_THE_32 + high - 20
  {
    var s0 := State(high, Idle(n));
    var s1 := Step(s0, ReadForDown(0));
    var s2 := Step(s1, ReadForDown(1));
    var s3 := Step(s2, Event.Write(0));
    RunCons(s3, Event.Write(1), []);
    RunCons(s2, Event.Write(0), [Event.Write(1)] + []);
    RunCons(s1, ReadForDown(1), [Event.Write(0)] + ([Event.Write(1)] + []));
    RunCons(s0, ReadForDown(0), [ReadForDown(1)] + ([Event.Write(0)] + ([Event.Write(1)] + [])));
    events := [ReadForDown(0)] + ([ReadForDown(1)] + ([Event.Write(0)] + ([Event.Write(1)] + [])));
  }

  /** One listener first presses "down" until the level is in 10..19. */
  lemma {:induction false} PressDownThenRace(n: nat, high: uint32) returns (events: seq<Event>)
    requires n >= 2 && 10 <= high <= MAX_BRIGHTNESS
    ensures Legal(State(high, Idle(n)), events) && OnlyDown(events)
    ensures Run(State(high, Idle(n)), events).high > MAX_BRIGHTNESS
    decreases high
  {
    if high < 20 {
      events := DownPressesWrap(n, high);
    } else {
      var s := State(high, Idle(n));
      var press := [ReadForDown(0), Event.Write(0)];
      UndisturbedPress(s, 0, false);
      var rest := PressDownThenRace(n, high - 10);
      RunAppend(s, press, rest);
      events := press + rest;
    }
  }

  /** Presses downwards can take the level out of 0..100, by wrapping below zero, exactly if there
      are two listeners to race and the level is at least one increment. */
  lemma DownPressesWrapIff(n: nat, high: uint32)
    requires high <= MAX_BRIGHTNESS
    ensures CanLeaveRange(n, high, OnlyDown) <==> n >= 2 && high >= INCREMENT
  {
    if n >= 2 && high >= INCREMENT {
      var events := PressDownThenRace(n, high);
      assert OnlyDown(events);
    } else {
      forall events | Legal(State(high, Idle(n)), events) && OnlyDown(events)
        ensures Run(State(high, Idle(n)), events).high <= MAX_BRIGHTNESS
      {
        if high < INCREMENT {
          StaysTooLow(State(high, Idle(n)), events);
        } else {
          StaysRight(State(high, Idle(n)), events);
        }
      }
    }
  }

  /** Presses in both directions keep the level in 0..100 exactly with at most one listener. */
  lemma PressesLeaveRangeIff(n: nat, high: uint32)
    requires high <= MAX_BRIGHTNESS
    ensures CanLeaveRange(n, high, OnlyPresses) <==> n >= 2
  {
    if n >= 2 {
      var events: seq<Event>;
      if high >= INCREMENT {
        events := PressDownThenRace(n, high);
      } else {
        var s := State(high, Idle(n));
        UndisturbedPress(s, 0, true);
        var rest := PressDownThenRace(n, high + 10);
        RunAppend(s, [ReadForUp(0), Event.Write(0)], rest);
        events := [ReadForUp(0), Event.Write(0)] + rest;
      }
      assert OnlyPresses(events);
    } else {
      forall events | Legal(State(high, Idle(n)), events) && OnlyPresses(events)
        ensures Run(State(high, Idle(n)), events).high <= MAX_BRIGHTNESS
      {
        StaysRight(State(high, Idle(n)), events);
      }
    }
  }

  /** With sysctl writes in between even a single listener can take the level out of 0..100. */
  lemma AnyEventsLeaveRangeIff(n: nat, high: uint32)
    requires high <= MAX_BRIGHTNESS
    ensures CanLeaveRange(n, high, _ => true) <==> n >= 1
  {
    var s := State(high, Idle(n));
    if n >= 1 {
      var s1 := Step(s, Sysctl(90));
      var s2 := Step(s1, ReadForUp(0));
      var s3 := Step(s2, Sysctl(100));
      RunCons(s3, Event.Write(0), []);
      RunCons(s2, Sysctl(100), [Event.Write(0)] + []);
      RunCons(s1, ReadForUp(0), [Sysctl(100)] + ([Event.Write(0)] + []));
      RunCons(s, Sysctl(90), [ReadForUp(0)] + ([Sysctl(100)] + ([Event.Write(0)] + [])));
    } else {
      forall events | Legal(s, events)
        ensures Run(s, events).high <= MAX_BRIGHTNESS
      {
        SysctlAloneInRange(s, events);
      }
    }
  }

  lemma {:induction false} SysctlAloneInRange(s: State, events: seq<Event>)
    requires Legal(s, events) && s.high <= MAX_BRIGHTNESS && s.listeners == []
    ensures Run(s, events).high <= MAX_BRIGHTNESS
    decreases |events|
  {
    if events == [] {
    } else {
      SysctlAloneInRange(Step(s, events[0]), events[1..]);
    }
  }
}
