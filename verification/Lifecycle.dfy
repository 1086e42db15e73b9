/** kmod/framework.c: loading the module sets its parts up stage by stage; a failing stage undoes
    the completed ones; unloading tears everything down. A stage is set up as a whole or not. */
module Lifecycle {
  const ENXIO: int := 6

  datatype Stage = DimState | ScreenSettings | Power | Keys | Backlight | Sysctls | Evdev | Callout

  datatype Action = Create(stage: Stage) | Destroy(stage: Stage)

  const STAGES: nat := 8

  /** The order of set-up. The state structure comes first and cannot fail. */
  function StageAt(k: nat): Stage
    requires k < STAGES
  {
    match k
    case 0 => DimState
    case 1 => ScreenSettings
    case 2 => Power
    case 3 => Keys
    case 4 => Backlight
    case 5 => Sysctls
    case 6 => Evdev
    case 7 => Callout
  }

  /** The first k stages. */
  function FirstStages(k: nat): (stages: seq<Stage>)
    requires k <= STAGES
    ensures |stages| == k && forall i :: 0 <= i < k ==> stages[i] == StageAt(i)
  {
    seq(k, i requires 0 <= i < k => StageAt(i))
  }

  class Module {
    var status: int                 // 0 = start, 1 = init, 2 = deinit
    ghost var log: seq<Action>

    constructor ()
      ensures status == 0 && log == []
    {
      status, log := 0, [];
    }

    /** Sets up stage k; `base` is the log before stage 0. */
    method SetUp(stage: Stage, ghost base: seq<Action>, ghost k: nat)
      requires k < STAGES && stage == StageAt(k) && log == base + Upwards(k)
      modifies this`log
      ensures log == base + Upwards(k + 1)
    {
      AppendAssociates(base, Upwards(k), [Create(stage)]);
      log := log + [Create(stage)];
    }

    /** Tears down stage k, on the way down to stage `to` and the log `goal`. */
    method TearDown(stage: Stage, ghost to: nat, ghost goal: seq<Action>, ghost k: nat)
      requires to <= k < STAGES && stage == StageAt(k) && log + Downwards(k, to) == goal
      modifies this`log
      ensures log + Downwards(k - 1, to) == goal
    {
      AppendAssociates(log, [Destroy(stage)], Downwards(k - 1, to));
      log := log + [Destroy(stage)];
    }

    /** The stages of `framework_init` up to the first failure. */
    method Attempt(fails: set<Stage>, code: Stage -> int) returns (undo: nat, error: int, done: bool)
      requires forall stage :: code(stage) != 0
      modifies this
      ensures log == old(log) + Upwards(Completed(fails))
      ensures done <==> Completed(fails) == STAGES
      ensures !done ==> undo + 1 == Completed(fails)
      ensures done ==> status == 1
      ensures error == ErrorOf(fails, code)
    {
      undo, error, done := 0, 0, false;
      ghost var base := log;
      SetUp(DimState, base, 0);
      if ScreenSettings in fails {
        error := code(ScreenSettings);
        return;
      }
      SetUp(ScreenSettings, base, 1);
      undo := undo + 1;
      if Power in fails {
        error := code(Power);
        return;
      }
      SetUp(Power, base, 2);
      undo := undo + 1;
      if Keys in fails {
        return;
      }
      SetUp(Keys, base, 3);
      undo := undo + 1;
      if Backlight in fails {
        error := code(Backlight);
        return;
      }
      SetUp(Backlight, base, 4);
      undo := undo + 1;
      if Sysctls in fails {
        error := code(Sysctls);
        return;
      }
      SetUp(Sysctls, base, 5);
      undo := undo + 1;
      if Evdev in fails {
        error := code(Evdev);
        return;
      }
      SetUp(Evdev, base, 6);
      undo := undo + 1;
      if Callout in fails {
        error := ENXIO;
        return;
      }
      SetUp(Callout, base, 7);
      status := 1;
      done := true;
    }

    /** `framework_init`, with the set of stages that would fail and the errors they report. A key
        handler that cannot be set up fails the load without an error code; with its allocation, which
        waits for memory, that does not come up. */
    method Load(fails: set<Stage>, code: Stage -> int) returns (error: int)
      requires forall stage :: code(stage) != 0
      modifies this
      ensures log == old(log) + LoadLog(Completed(fails))
      ensures status == if Completed(fails) == STAGES then 1 else 2
      ensures error == ErrorOf(fails, code)
      ensures error == 0 <==> Completed(fails) == STAGES || StageAt(Completed(fails)) == Keys
    {
      status := 0;
      var undo, attemptError, done := Attempt(fails, code);
      error := attemptError;
      if done {
        assert LoadLog(STAGES) == Upwards(STAGES);
        return;
      }
      AppendAssociates(old(log), Upwards(undo + 1), Downwards(undo, 0));
      ErrorExit(undo);
    }

    /** The error exit of `framework_init`. */
    method ErrorExit(undo: nat)
      requires undo <= 6
      modifies this
      ensures log == old(log) + Downwards(undo, 0) && status == 2
    {
      ghost var goal := log + Downwards(undo, 0);
      DownwardsLast(undo);
      Undo(undo);
      TearDown(DimState, 0, goal, 0);
      assert log + Downwards(-1, 0) == log;
      status := 2;
    }

    /** The fall-through switch of the error exit. */
    method Undo(undo: nat)
      requires undo <= 6
      modifies this`log
      ensures log == old(log) + Downwards(undo, 1)
    {
      ghost var goal := log + Downwards(undo, 1);
      if undo >= 6 {
        TearDown(Evdev, 1, goal, 6);
      }
      if undo >= 5 {
        TearDown(Sysctls, 1, goal, 5);
      }
      if undo >= 4 {
        TearDown(Backlight, 1, goal, 4);
      }
      if undo >= 3 {
        TearDown(Keys, 1, goal, 3);
      }
      if undo >= 2 {
        TearDown(Power, 1, goal, 2);
      }
      if undo >= 1 {
        TearDown(ScreenSettings, 1, goal, 1);
      }
    }

    /** `framework_destroy`. The status is left as it was. */
    method Unload()
      modifies this
      ensures status == old(status)
      ensures log == old(log) + if status == 1 then Downwards(7, 0) else []
    {
      if status != 1 {
        return;
      }
      ghost var goal := log + Downwards(7, 0);
      TearDown(Callout, 0, goal, 7);
      TearDown(Evdev, 0, goal, 6);
      TearDown(Sysctls, 0, goal, 5);
      TearDown(Backlight, 0, goal, 4);
      TearDown(Keys, 0, goal, 3);
      TearDown(Power, 0, goal, 2);
      TearDown(ScreenSettings, 0, goal, 1);
      TearDown(DimState, 0, goal, 0);
    }
  }

  lemma AppendAssociates(a: seq<Action>, b: seq<Action>, c: seq<Action>)
    ensures (a + b) + c == a + (b + c)
  {
  }

  // ----- What the log says

  /** How many stages are set up before the first failure. */
  function Completed(fails: set<Stage>): (k: nat)
    ensures 1 <= k <= STAGES
    ensures forall i :: 1 <= i < k ==> StageAt(i) !in fails
    ensures k < STAGES ==> StageAt(k) in fails
  {
    if ScreenSettings in fails then 1
    else if Power in fails then 2
    else if Keys in fails then 3
    else if Backlight in fails then 4
    else if Sysctls in fails then 5
    else if Evdev in fails then 6
    else if Callout in fails then 7
    else 8
  }

  /** The error of the first failing stage; the key handler has none, and the callout's is ENXIO. */
  function ErrorOf(fails: set<Stage>, code: Stage -> int): int {
    var k := Completed(fails);
    if k == STAGES || StageAt(k) == Keys then 0
    else if StageAt(k) == Callout then ENXIO
    else code(StageAt(k))
  }

  /** Of a single failing stage it is that stage's, 6 (ENXIO) for the callout, none for the keys. */
  lemma ErrorsWrittenOut(stage: Stage, code: Stage -> int)
    requires stage != DimState
    ensures ErrorOf({stage}, code) == match stage case Keys => 0 case Callout => 6 case _ => code(stage)
    ensures ErrorOf({}, code) == 0
  {
  }

  /** What a load without failure does, and the unload after it, written out. */
  lemma FullCycleWrittenOut()
    ensures LoadLog(Completed({})) ==
            [Create(DimState), Create(ScreenSettings), Create(Power), Create(Keys), Create(Backlight),
             Create(Sysctls), Create(Evdev), Create(Callout)]
    ensures CycleLog({}) == LoadLog(Completed({})) +
            [Destroy(Callout), Destroy(Evdev), Destroy(Sysctls), Destroy(Backlight), Destroy(Keys),
             Destroy(Power), Destroy(ScreenSettings), Destroy(DimState)]
  {
    assert Completed({}) == 8;
    assert Upwards(4) == [Create(DimState), Create(ScreenSettings), Create(Power), Create(Keys)];
    assert Upwards(8) == Upwards(4) + [Create(Backlight), Create(Sysctls), Create(Evdev), Create(Callout)];
    assert Downwards(3, 0) == [Destroy(Keys), Destroy(Power), Destroy(ScreenSettings), Destroy(DimState)];
    assert Downwards(7, 0) == [Destroy(Callout), Destroy(Evdev), Destroy(Sysctls), Destroy(Backlight)] + Downwards(3, 0);
  }

  /** And what a load does that fails at the backlight. */
  lemma FailedLoadWrittenOut(fails: set<Stage>, code: Stage -> int)
    requires Backlight in fails && fails !! {ScreenSettings, Power, Keys}
    ensures LoadLog(Completed(fails)) ==
            [Create(DimState), Create(ScreenSettings), Create(Power), Create(Keys),
             Destroy(Keys), Destroy(Power), Destroy(ScreenSettings), Destroy(DimState)]
    ensures ErrorOf(fails, code) == code(Backlight)
  {
    assert ScreenSettings in {ScreenSettings, Power, Keys} && Power in {ScreenSettings, Power, Keys} && Keys in {ScreenSettings, Power, Keys};
    assert Completed(fails) == 4;
    assert Upwards(4) == [Create(DimState), Create(ScreenSettings), Create(Power), Create(Keys)];
    assert Downwards(3, 0) == [Destroy(Keys), Destroy(Power), Destroy(ScreenSettings), Destroy(DimState)];
  }

  /** Setting up stages 0 to k-1. */
  function Upwards(k: nat): seq<Action>
    requires k <= STAGES
  {
    if k == 0 then [] else Upwards(k - 1) + [Create(StageAt(k - 1))]
  }

  /** Tearing down stages `from`, from-1, ..., `to`. */
  function Downwards(from: int, to: nat): seq<Action>
    requires from < STAGES
    decreases from
  {
    if from < to then [] else [Destroy(StageAt(from))] + Downwards(from - 1, to)
  }

  lemma {:induction false} DownwardsLast(from: nat)
    requires from < STAGES
    ensures Downwards(from, 1) + Downwards(0, 0) == Downwards(from, 0)
  {
    if from == 0 {
    } else {
      DownwardsLast(from - 1);
    }
  }

  function LoadLog(k: nat): seq<Action>
    requires 1 <= k <= STAGES
  {
    Upwards(k) + if k == STAGES then [] else Downwards(k - 1, 0)
  }

  /** Playing a log: creating pushes a stage that must not be live, destroying pops it and it must
      be the latest. */
  datatype Live = Live(stack: seq<Stage>) | Broken

  function Play(live: Live, log: seq<Action>): Live
    decreases |log|
  {
    if live.Broken? || log == [] then live
    else Play(PlayOne(live, log[0]), log[1..])
  }

  function PlayOne(live: Live, action: Action): Live
    requires live.Live?
  {
    match action
    case Create(s) => if s in live.stack then Broken else Live(live.stack + [s])
    case Destroy(s) =>
      var n := |live.stack|;
      if n > 0 && live.stack[n - 1] == s then Live(live.stack[..n - 1]) else Broken
  }

  lemma {:induction false} PlayAppend(live: Live, a: seq<Action>, b: seq<Action>)
    ensures Play(live, a + b) == Play(Play(live, a), b)
    decreases |a|
  {
    if a == [] {
      assert a + b == b;
    } else if live.Live? {
      assert (a + b)[0] == a[0] && (a + b)[1..] == a[1..] + b;
      PlayAppend(PlayOne(live, a[0]), a[1..], b);
    }
  }

  lemma {:induction false} PlayUpwards(k: nat)
    requires k <= STAGES
    ensures Play(Live([]), Upwards(k)) == Live(FirstStages(k))
  {
    if k == 0 {
    } else {
      PlayUpwards(k - 1);
      var one := [Create(StageAt(k - 1))];
      PlayAppend(Live([]), Upwards(k - 1), one);
      assert one[1..] == [];
      assert FirstStages(k) == FirstStages(k - 1) + [StageAt(k - 1)];
    }
  }

  lemma {:induction false} PlayDownwards(from: nat)
    requires from < STAGES
    ensures Play(Live(FirstStages(from + 1)), Downwards(from, 0)) == Live([])
  {
    var rest := Downwards(from - 1, 0);
    assert Downwards(from, 0)[1..] == rest;
    assert FirstStages(from + 1)[..from] == FirstStages(from);
    if from == 0 {
    } else {
      PlayDownwards(from - 1);
    }
  }

  /** A load leaves all stages live, or, whichever stage fails, none: the completed ones have been
      destroyed in reverse order. */
  lemma LoadIsAllOrNothing(fails: set<Stage>)
    ensures var k := Completed(fails);
            Play(Live([]), LoadLog(k)) == Live(if k == STAGES then FirstStages(STAGES) else [])
  {
    var k := Completed(fails);
    PlayUpwards(k);
    if k < STAGES {
      PlayAppend(Live([]), Upwards(k), Downwards(k - 1, 0));
      PlayDownwards(k - 1);
    } else {
      assert LoadLog(k) == Upwards(k);
    }
  }

  /** One load with the given failures, and the unload that follows it. */
  function CycleLog(fails: set<Stage>): seq<Action> {
    var k := Completed(fails);
    LoadLog(k) + if k == STAGES then Downwards(7, 0) else []
  }

  function CyclesLog(cycles: seq<set<Stage>>): seq<Action> {
    if cycles == [] then [] else CycleLog(cycles[0]) + CyclesLog(cycles[1..])
  }

  lemma CycleIsClean(fails: set<Stage>)
    ensures Play(Live([]), CycleLog(fails)) == Live([])
  {
    var k := Completed(fails);
    LoadIsAllOrNothing(fails);
    PlayDownwards(7);
    PlayAppend(Live([]), LoadLog(k), if k == STAGES then Downwards(7, 0) else []);
  }

  /** Over any number of loads, each followed by one unload and failing or not, no stage is destroyed
      twice, out of order or before it is set up, and none is left. */
  lemma {:induction false} CyclesAreClean(cycles: seq<set<Stage>>)
    ensures Play(Live([]), CyclesLog(cycles)) == Live([])
  {
    if cycles == [] {
    } else {
      CycleIsClean(cycles[0]);
      CyclesAreClean(cycles[1..]);
      PlayAppend(Live([]), CycleLog(cycles[0]), CyclesLog(cycles[1..]));
    }
  }

  /** An unload does not clear the status, so a second call of it would destroy everything again:
      after a load and its unload, one more call is harmless exactly if the load had failed. (This is
      about the function's own guard; the kernel makes no such second call after an unload that
      succeeded.) */
  lemma SecondUnloadIff(cycles: seq<set<Stage>>, fails: set<Stage>)
    ensures var k := Completed(fails);
            var again := if k == STAGES then Downwards(7, 0) else [];
            Play(Live([]), CyclesLog(cycles) + (CycleLog(fails) + again)) != Broken <==> k < STAGES
  {
    var k := Completed(fails);
    var again := if k == STAGES then Downwards(7, 0) else [];
    CyclesAreClean(cycles);
    CycleIsClean(fails);
    PlayAppend(Live([]), CyclesLog(cycles), CycleLog(fails) + again);
    PlayAppend(Live([]), CycleLog(fails), again);
    if k == STAGES {
      assert PlayOne(Live([]), again[0]) == Broken;
    }
  }

  /** Loads and unloads, played on the object: afterwards nothing is live, and nothing was destroyed
      that was not the latest live stage. */
  method LoadAndUnload(m: Module, cycles: seq<set<Stage>>, code: Stage -> int)
    requires (forall stage :: code(stage) != 0) && m.log == []
    modifies m
    ensures m.log == CyclesLog(cycles) && Play(Live([]), m.log) == Live([])
  {
    var i := 0;
    assert cycles[0..] == cycles && m.log + CyclesLog(cycles) == CyclesLog(cycles);
    while i < |cycles|
      invariant 0 <= i <= |cycles|
      invariant m.log + CyclesLog(cycles[i..]) == CyclesLog(cycles)
    {
      assert cycles[i..][0] == cycles[i] && cycles[i..][1..] == cycles[i + 1..];
      AppendAssociates(m.log, CycleLog(cycles[i]), CyclesLog(cycles[i + 1..]));
      Cycle(m, cycles[i], code);
      i := i + 1;
    }
    CyclesAreClean(cycles);
  }

  method Cycle(m: Module, fails: set<Stage>, code: Stage -> int)
    requires forall stage :: code(stage) != 0
    modifies m
    ensures m.log == old(m.log) + CycleLog(fails)
    ensures m.status == if Completed(fails) == STAGES then 1 else 2
  {
    ghost var k := Completed(fails);
    AppendAssociates(m.log, LoadLog(k), if k == STAGES then Downwards(7, 0) else []);
    var _ := m.Load(fails, code);
    m.Unload();
  }

  /** The same, with a second call of unload at the end. */
  method UnloadTwice(m: Module, cycles: seq<set<Stage>>, fails: set<Stage>, code: Stage -> int)
    requires (forall stage :: code(stage) != 0) && m.log == []
    modifies m
    ensures Play(Live([]), m.log) != Broken <==> Completed(fails) < STAGES
  {
    LoadAndUnload(m, cycles, code);
    Cycle(m, fails, code);
    ghost var again := if Completed(fails) == STAGES then Downwards(7, 0) else [];
    AppendAssociates(CyclesLog(cycles), CycleLog(fails), again);
    m.Unload();
    SecondUnloadIff(cycles, fails);
  }
}
