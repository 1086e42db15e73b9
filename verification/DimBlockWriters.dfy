/** kmod/framework_sysctl.c and kmod/framework_state.c: any number of writers of the dimblock sysctl
    at once. A write reads the counter in one locked section and changes it in a second one, and
    sections of other writers may run in between. */
module DimBlockWriters {
  import opened MachineIntegers
  import opened DimBlock

  type positive32 = x: uint32 | x > 0 witness 1

  /** What a writer that has read the counter is about to do. */
  datatype Pending = Nothing | Up(value: positive32) | Down

  datatype State = State(count: uint32, writers: seq<Pending>)

  /** The two locked sections of a write; the first one ends it if the value is the count. */
  datatype Event = Read(i: nat, value: uint32) | Change(i: nat)

  predicate Enabled(s: State, e: Event) {
    match e
    case Read(i, _) => i < |s.writers| && s.writers[i] == Nothing
    case Change(i) => i < |s.writers| && s.writers[i] != Nothing
  }

  function Decide(count: uint32, value: uint32): Pending {
    if value == count then Nothing else if value > 0 then Up(value) else Down
  }

  function Step(s: State, e: Event): State
    requires Enabled(s, e)
  {
    match e
    case Read(i, value) => s.(writers := s.writers[i := Decide(s.count, value)])
    case Change(i) =>
      State(Next(s.count, if s.writers[i].Up? then Increment else Decrement), s.writers[i := Nothing])
  }

  predicate Legal(s: State, events: seq<Event>)
    decreases |events|
  {
    events == [] || (Enabled(s, events[0]) && Legal(Step(s, events[0]), events[1..]))
  }

  function Run(s: State, events: seq<Event>): State
    requires Legal(s, events)
    decreases |events|
  {
    if events == [] then s else Run(Step(s, events[0]), events[1..])
  }

  // ----- Which writes take effect, and when

  /** The value whose write takes effect in this section, if any: a change when it is made, and a
      decrement of 0, which is to do nothing, when it reads the 0. */
  function EffectOf(s: State, e: Event): seq<uint32>
    requires Enabled(s, e)
  {
    match e
    case Read(_, value) => if value == s.count == 0 then [0] else []
    case Change(i) => [ValueOf(s.writers[i])]
  }

  function ValueOf(p: Pending): uint32 {
    if p.Up? then p.value else 0
  }

  function Effects(s: State, events: seq<Event>): seq<uint32>
    requires Legal(s, events)
    decreases |events|
  {
    if events == [] then [] else EffectOf(s, events[0]) + Effects(Step(s, events[0]), events[1..])
  }

  /** A positive value that is the count it reads: the write that does nothing. */
  predicate IsLost(s: State, e: Event) {
    e.Read? && e.value == s.count && e.value > 0
  }

  function Once(happens: bool): nat {
    if happens then 1 else 0
  }

  /** How often a value was written, lost, took effect, and is between the two sections of a write. */
  function WrittenTimes(events: seq<Event>, v: uint32): nat {
    if events == [] then 0
    else Once(events[0].Read? && events[0].value == v) + WrittenTimes(events[1..], v)
  }

  function LostTimes(s: State, events: seq<Event>, v: uint32): nat
    requires Legal(s, events)
    decreases |events|
  {
    if events == [] then 0
    else Once(IsLost(s, events[0]) && events[0].value == v) + LostTimes(Step(s, events[0]), events[1..], v)
  }

  function EffectTimes(effects: seq<uint32>, v: uint32): nat {
    if effects == [] then 0 else Once(effects[0] == v) + EffectTimes(effects[1..], v)
  }

  function UnderwayTimes(writers: seq<Pending>, v: uint32): nat {
    if writers == [] then 0 else Once(IsUnderway(writers[0], v)) + UnderwayTimes(writers[1..], v)
  }

  predicate IsUnderway(p: Pending, v: uint32) {
    p != Nothing && ValueOf(p) == v
  }

  /** Serial writes as the manual page has them. */
  function DocumentedFrom(count: nat, values: seq<uint32>): nat
    decreases |values|
  {
    if values == [] then count else DocumentedFrom(Documented(count, values[0]), values[1..])
  }

  lemma {:induction false} FromZero(values: seq<uint32>)
    ensures DocumentedFrom(0, values) == DocumentedAll(values)
  {
    if values == [] {
    } else {
      var n := |values| - 1;
      FromZero(values[..n]);
      LastWrite(0, values[..n], values[n]);
      assert values == values[..n] + [values[n]];
    }
  }

  lemma {:induction false} LastWrite(count: nat, values: seq<uint32>, last: uint32)
    ensures DocumentedFrom(count, values + [last]) == Documented(DocumentedFrom(count, values), last)
    decreases |values|
  {
    if values == [] {
      assert [last][1..] == [];
    } else {
      assert (values + [last])[1..] == values[1..] + [last];
      LastWrite(Documented(count, values[0]), values[1..], last);
    }
  }

  // ----- Every interleaving is a serial order of the writes that are not lost

  lemma StepIsSerial(s: State, e: Event)
    requires Enabled(s, e) && s.count + 1 < TWO_TO_THE_32
    ensures Step(s, e).count == DocumentedFrom(s.count, EffectOf(s, e)) <= s.count + 1
  {
    if e.Change? {
      assert [ValueOf(s.writers[e.i])][1..] == [];
    }
  }

  lemma {:induction false} DocumentedAppend(count: nat, a: seq<uint32>, b: seq<uint32>)
    ensures DocumentedFrom(count, a + b) == DocumentedFrom(DocumentedFrom(count, a), b)
    decreases |a|
  {
    if a == [] {
      assert a + b == b;
    } else {
      assert (a + b)[1..] == a[1..] + b;
      DocumentedAppend(Documented(count, a[0]), a[1..], b);
    }
  }

  /** In every interleaving the counter is what the manual page makes of the effective writes, one
      after the other, each at a point between its beginning and its end. */
  lemma {:induction false} InterleavingIsSerial(s: State, events: seq<Event>)
    requires Legal(s, events) && s.count + |events| < TWO_TO_THE_32
    ensures Run(s, events).count == DocumentedFrom(s.count, Effects(s, events))
    decreases |events|
  {
    if events == [] {
    } else {
      var next := Step(s, events[0]);
      StepIsSerial(s, events[0]);
      InterleavingIsSerial(next, events[1..]);
      DocumentedAppend(s.count, EffectOf(s, events[0]), Effects(next, events[1..]));
    }
  }

  lemma {:induction false} UnderwayUpdate(writers: seq<Pending>, i: nat, p: Pending, v: uint32)
    requires i < |writers|
    ensures UnderwayTimes(writers[i := p], v) + Once(IsUnderway(writers[i], v)) ==
            UnderwayTimes(writers, v) + Once(IsUnderway(p, v))
  {
    if i == 0 {
      assert writers[i := p][1..] == writers[1..];
    } else {
      assert writers[i := p][1..] == writers[1..][i - 1 := p];
      UnderwayUpdate(writers[1..], i - 1, p, v);
    }
  }

  lemma {:induction false} EffectTimesAppend(a: seq<uint32>, b: seq<uint32>, v: uint32)
    ensures EffectTimes(a + b, v) == EffectTimes(a, v) + EffectTimes(b, v)
  {
    if a == [] {
      assert a + b == b;
    } else {
      assert (a + b)[1..] == a[1..] + b;
      EffectTimesAppend(a[1..], b, v);
    }
  }

  lemma StepConserves(s: State, e: Event, v: uint32)
    requires Enabled(s, e)
    ensures Once(e.Read? && e.value == v) + UnderwayTimes(s.writers, v) ==
            EffectTimes(EffectOf(s, e), v) + Once(IsLost(s, e) && e.value == v) + UnderwayTimes(Step(s, e).writers, v)
  {
    UnderwayUpdate(s.writers, e.i, Step(s, e).writers[e.i], v);
  }

  /** No write counts twice, and none disappears but the lost ones: what was written is what took
      effect, what was lost, and what is still under way. */
  lemma {:induction false} WritesAreConserved(s: State, events: seq<Event>, v: uint32)
    requires Legal(s, events)
    ensures WrittenTimes(events, v) + UnderwayTimes(s.writers, v) ==
            EffectTimes(Effects(s, events), v) + LostTimes(s, events, v) + UnderwayTimes(Run(s, events).writers, v)
    decreases |events|
  {
    if events == [] {
    } else {
      var next := Step(s, events[0]);
      StepConserves(s, events[0], v);
      WritesAreConserved(next, events[1..], v);
      EffectTimesAppend(EffectOf(s, events[0]), Effects(next, events[1..]), v);
    }
  }

  function Idle(n: nat): seq<Pending> {
    seq(n, _ => Nothing)
  }

  lemma {:induction false} NothingUnderway(n: nat, v: uint32)
    ensures UnderwayTimes(Idle(n), v) == 0
  {
    if n == 0 {
    } else {
      assert Idle(n)[1..] == Idle(n - 1);
      NothingUnderway(n - 1, v);
    }
  }

  /** What took effect is all that was written. */
  ghost predicate AllEffective(s: State, events: seq<Event>)
    requires Legal(s, events)
  {
    forall v: uint32 :: EffectTimes(Effects(s, events), v) == WrittenTimes(events, v)
  }

  /** No write met its own positive value as the count. */
  ghost predicate NoneLost(s: State, events: seq<Event>)
    requires Legal(s, events)
  {
    forall v: uint32 :: LostTimes(s, events, v) == 0
  }

  /** N writers that all get through: the counter is what the manual page makes of the effects in
      their order, and the effects are all that was written exactly if no write met its own positive
      value as the count. */
  lemma {:induction false} AllWritesTakeEffectIff(n: nat, events: seq<Event>)
    requires Legal(State(0, Idle(n)), events) && |events| < TWO_TO_THE_32
    requires Run(State(0, Idle(n)), events).writers == Idle(n)
    ensures Run(State(0, Idle(n)), events).count == DocumentedAll(Effects(State(0, Idle(n)), events))
    ensures AllEffective(State(0, Idle(n)), events) <==> NoneLost(State(0, Idle(n)), events)
  {
    var s := State(0, Idle(n));
    InterleavingIsSerial(s, events);
    FromZero(Effects(s, events));
    if AllEffective(s, events) {
      forall v: uint32
        ensures LostTimes(s, events, v) == 0
      {
        EffectiveOrLost(n, events, v);
      }
      assert NoneLost(s, events);
    }
    if NoneLost(s, events) {
      forall v: uint32
        ensures EffectTimes(Effects(s, events), v) == WrittenTimes(events, v)
      {
        EffectiveOrLost(n, events, v);
      }
      assert AllEffective(s, events);
    }
  }

  lemma EffectiveOrLost(n: nat, events: seq<Event>, v: uint32)
    requires Legal(State(0, Idle(n)), events) && Run(State(0, Idle(n)), events).writers == Idle(n)
    ensures WrittenTimes(events, v) ==
            EffectTimes(Effects(State(0, Idle(n)), events), v) + LostTimes(State(0, Idle(n)), events, v)
  {
    WritesAreConserved(State(0, Idle(n)), events, v);
    NothingUnderway(n, v);
  }

  /** Two sections back to back are the serial write. */
  lemma UndisturbedWrite(s: State, i: nat, value: uint32)
    requires i < |s.writers| && s.writers[i] == Nothing
    ensures var read := Step(s, Read(i, value));
            s.(count := Written(s.count, value)) == if Enabled(read, Change(i)) then Step(read, Change(i)) else read
  {
    assert s.writers[i := Decide(s.count, value)][i := Nothing] == s.writers;
  }

  /** The same sections as atomic steps on shared fields. */
  class SharedHints {
    var count: uint32
    const writers: array<Pending>

    function View(): State
      reads this, writers
    {
      State(count, writers[..])
    }

    constructor (n: nat)
      ensures View() == State(0, Idle(n)) && fresh(writers)
    {
      count := 0;
      writers := new Pending[n](_ => Nothing);
    }

    /** `framework_state_getdimcount`, and the decision taken after it. */
    method ReadCount(i: nat, value: uint32)
      requires Enabled(View(), Read(i, value))
      modifies writers
      ensures View() == Step(old(View()), Read(i, value))
    {
      var counter := count;
      if value != counter {
        if value > 0 {
          writers[i] := Up(value);
        } else {
          writers[i] := Down;
        }
      }
    }

    /** `framework_state_incdimcount` or `framework_state_decdimcount`. */
    method ChangeCount(i: nat)
      requires Enabled(View(), Change(i))
      modifies this, writers
      ensures View() == Step(old(View()), Change(i))
    {
      if writers[i].Up? {
        count := Wrap32(count + 1);
      } else if count != 0 {
        count := count - 1;
      }
      writers[i] := Nothing;
    }

    /** Any interleaving of the sections, played on the object. */
    method Drive(events: seq<Event>)
      requires Legal(View(), events)
      modifies this, writers
      ensures View() == Run(old(View()), events)
      ensures old(count) + |events| < TWO_TO_THE_32 ==>
                count == DocumentedFrom(old(count), Effects(old(View()), events))
    {
      ghost var start := View();
      var i := 0;
      assert events[0..] == events;
      while i < |events|
        invariant 0 <= i <= |events|
        invariant Legal(View(), events[i..]) && Run(View(), events[i..]) == Run(start, events)
      {
        assert events[i..][0] == events[i] && events[i..][1..] == events[i + 1..];
        match events[i] {
          case Read(k, value) => ReadCount(k, value);
          case Change(k) => ChangeCount(k);
        }
        i := i + 1;
      }
      if start.count + |events| < TWO_TO_THE_32 {
        InterleavingIsSerial(start, events);
      }
    }
  }
}
