/** The dimming thread at a finer grain: between the locked sections of one pass, time passes and
    inputs, settings and mode changes come in from other threads. */
module DimmingRace {
  import opened MachineIntegers
  import opened KeyHandler
  import opened Dimming

  /** Where the thread is within a pass, with its local variables. */
  datatype Pc =
    | Asleep
    | HasTimeout(timeout: uint32)                           // current_timeout read
    | Sampled(timeout: uint32, last: nat)                   // last_input read
    | Decided(timeout: uint32, elapsed: uint32)             // dim check done
    | Fetched(timeout: uint32, elapsed: uint32, brightness: uint32)

  datatype Fine = Fine(core: State, pc: Pc)

  /** The thread's own steps, and everything else as it was. */
  datatype Step =
    | SampleTimeout
    | SampleInput
    | Decide
    | Fetch
    | Push
    | Other(event: Event)

  predicate Enabled(f: Fine, step: Step) {
    match step
    case SampleTimeout => f.pc.Asleep? && (f.core.phase.Wired? || f.core.phase.Running?) && f.core.now >= f.core.nextWake
    case SampleInput => f.pc.HasTimeout?
    case Decide => f.pc.Sampled?
    case Fetch => f.pc.Decided?
    case Push => f.pc.Fetched?
    case Other(e) => e != Pass && (e == Wire ==> f.core.phase.Spawned?)
  }

  function ElapsedSince(now: nat, last: nat): uint32 {
    Wrap32(now - (if last > now then now else last))
  }

  /** Whether the coming decision sets the level to Dim. */
  predicate WillDim(f: Fine) {
    f.pc.Sampled? && ElapsedSince(f.core.now, f.pc.last) >= f.pc.timeout
  }

  function Take(f: Fine, step: Step): Fine
    requires Enabled(f, step)
  {
    match step
    case SampleTimeout =>
      var timeout := f.core.Current().timeout;
      if timeout == 0 then Fine(f.core.(phase := Stopped), Asleep) else f.(pc := HasTimeout(timeout))
    case SampleInput =>
      f.(pc := Sampled(f.pc.timeout, f.core.lastInput))
    case Decide =>
      Fine(if WillDim(f) then f.core.(level := Dim) else f.core,
           Decided(f.pc.timeout, ElapsedSince(f.core.now, f.pc.last)))
    case Fetch =>
      f.(pc := Fetched(f.pc.timeout, f.pc.elapsed, f.core.Selected()))
    case Push =>
      Fine(f.core.(device := f.pc.brightness, phase := Running,
                   nextWake := f.core.now + NextSleep(f.pc.elapsed, f.pc.timeout)), Asleep)
    case Other(e) =>
      f.(core := Dimming.Step(f.core, e))
  }

  /** `steps` is a possible history from `f0`; `After` is the state it leads to. */
  predicate Possible(f0: Fine, steps: seq<Step>)
    decreases |steps|, 0
  {
    steps == [] ||
    (Possible(f0, steps[..|steps| - 1]) && Enabled(After(f0, steps[..|steps| - 1]), steps[|steps| - 1]))
  }

  function After(f0: Fine, steps: seq<Step>): Fine
    requires Possible(f0, steps)
    decreases |steps|, 1
  {
    if steps == [] then f0
    else Take(After(f0, steps[..|steps| - 1]), steps[|steps| - 1])
  }

  // ----- The coarse pass is the fine pass without interruption

  lemma Extend(f0: Fine, steps: seq<Step>, step: Step)
    requires Possible(f0, steps) && Enabled(After(f0, steps), step)
    ensures Possible(f0, steps + [step]) && After(f0, steps + [step]) == Take(After(f0, steps), step)
  {
    assert (steps + [step])[..|steps + [step]| - 1] == steps;
  }

  /** Run back to back, the sections of a pass are the single Pass step of the coarse machine. */
  lemma UninterruptedPass(f0: Fine, steps: seq<Step>)
    requires Possible(f0, steps) && Enabled(After(f0, steps), SampleTimeout)
    requires After(f0, steps).core.Current().timeout != 0
    ensures var all := steps + [SampleTimeout] + [SampleInput] + [Decide] + [Fetch] + [Push];
            Possible(f0, all) && After(f0, all) == Fine(Dimming.Step(After(f0, steps).core, Pass), Asleep)
  {
    Extend(f0, steps, SampleTimeout);
    Extend(f0, steps + [SampleTimeout], SampleInput);
    Extend(f0, steps + [SampleTimeout] + [SampleInput], Decide);
    Extend(f0, steps + [SampleTimeout] + [SampleInput] + [Decide], Fetch);
    Extend(f0, steps + [SampleTimeout] + [SampleInput] + [Decide] + [Fetch], Push);
  }

  /** With a timeout of 0 the pass ends where it begins. */
  lemma ZeroTimeoutStops(f: Fine)
    requires Enabled(f, SampleTimeout)
    requires (if f.core.mode.Battery? then f.core.battery.timeout else f.core.power.timeout) == 0
    ensures Take(f, SampleTimeout) == Fine(Dimming.Step(f.core, Pass), Asleep)
    ensures Take(f, SampleTimeout).core.phase.Stopped?
  {
  }

  // ----- When the level is Dim although there was input within the timeout

  predicate IsInput(step: Step) {
    step.Other? && step.event.Input?
  }

  predicate InputBetween(steps: seq<Step>, i: int, j: int) {
    exists k :: 0 <= i < k < j <= |steps| && IsInput(steps[k])
  }

  /** Step i is the last-input sample used by whatever decision follows before another sample. */
  predicate LatestSample(steps: seq<Step>, i: int) {
    && 0 <= i < |steps|
    && steps[i] == SampleInput
    && forall m :: i < m < |steps| ==> steps[m] != SampleInput
  }

  /** Step j set the level to Dim, on the sample of step i, and no input came since. */
  ghost predicate DimmedAt(f0: Fine, steps: seq<Step>, i: int, j: int)
    requires Possible(f0, steps)
  {
    && 0 <= i < j < |steps|
    && LatestSample(steps[..j], i)
    && steps[j] == Decide
    && Possible(f0, steps[..j]) && WillDim(After(f0, steps[..j]))
    && !InputBetween(steps, j, |steps|)
  }

  /** If the level is Dim too early, by the timeout the pass had sampled, an input came between
      that pass's sample and its decision. */
  ghost predicate Explained(f0: Fine, steps: seq<Step>, i: int, j: int)
    requires Possible(f0, steps)
  {
    && DimmedAt(f0, steps, i, j)
    && (After(f0, steps).core.Idle() < After(f0, steps[..j]).pc.timeout ==> InputBetween(steps, i, j))
  }

  /** What is known between a sample and the decision: no input means the sample is current. */
  ghost predicate SampleKnown(f0: Fine, steps: seq<Step>, i: int)
    requires Possible(f0, steps)
  {
    var f := After(f0, steps);
    f.pc.Sampled? &&
    LatestSample(steps, i) && (f.pc.last != f.core.lastInput ==> InputBetween(steps, i, |steps|))
  }

  ghost predicate Inv(f0: Fine, steps: seq<Step>)
    requires Possible(f0, steps)
  {
    var f := After(f0, steps);
    && f.core.lastInput <= f.core.now
    && (f.pc.Sampled? ==> f.pc.last <= f.core.lastInput && exists i :: SampleKnown(f0, steps, i))
    && (f.core.level.Dim? ==> !f.core.phase.Spawned?)
    && (!f.pc.Asleep? ==> !f.core.phase.Spawned?)
    && (f.core.level.Dim? ==> exists i, j :: Explained(f0, steps, i, j))
  }

  lemma SampleStaysKnown(f0: Fine, steps: seq<Step>, i: int)
    requires steps != [] && Possible(f0, steps)
    requires SampleKnown(f0, steps[..|steps| - 1], i) && steps[|steps| - 1].Other?
    ensures SampleKnown(f0, steps, i)
  {
  }

  lemma DimStaysExplained(f0: Fine, steps: seq<Step>, i: int, j: int)
    requires steps != [] && Possible(f0, steps)
    requires Explained(f0, steps[..|steps| - 1], i, j) && !IsInput(steps[|steps| - 1])
    ensures Explained(f0, steps, i, j)
  {
    var n := |steps| - 1;
    assert steps[..n][..j] == steps[..j];
    if After(f0, steps).core.Idle() < After(f0, steps[..j]).pc.timeout {
      assert InputBetween(steps[..n], i, j);
      var k :| 0 <= i < k < j && IsInput(steps[..n][k]);
      assert IsInput(steps[k]);
    }
  }

  lemma NewDimExplained(f0: Fine, steps: seq<Step>, i: int)
    requires steps != [] && Possible(f0, steps) && steps[|steps| - 1] == Decide
    requires var before := After(f0, steps[..|steps| - 1]);
             WillDim(before) && before.core.lastInput <= before.core.now && before.pc.last <= before.core.lastInput
    requires SampleKnown(f0, steps[..|steps| - 1], i)
    ensures Explained(f0, steps, i, |steps| - 1)
  {
  }

  lemma SamplePart(f0: Fine, steps: seq<Step>)
    requires steps != [] && Possible(f0, steps) && Inv(f0, steps[..|steps| - 1])
    requires After(f0, steps).pc.Sampled?
    ensures exists i :: SampleKnown(f0, steps, i)
  {
    var n := |steps| - 1;
    if steps[n] == SampleInput {
      assert SampleKnown(f0, steps, n);
    } else {
      assert steps[n].Other?;
      var i :| SampleKnown(f0, steps[..n], i);
      SampleStaysKnown(f0, steps, i);
    }
  }

  lemma DimPart(f0: Fine, steps: seq<Step>)
    requires steps != [] && Possible(f0, steps) && Inv(f0, steps[..|steps| - 1])
    requires After(f0, steps).core.level.Dim?
    ensures exists i, j :: Explained(f0, steps, i, j)
  {
    var n := |steps| - 1;
    var before := After(f0, steps[..n]);
    if steps[n] == Decide && WillDim(before) {
      var i :| SampleKnown(f0, steps[..n], i);
      NewDimExplained(f0, steps, i);
    } else {
      assert before.core.level.Dim?;
      var i, j :| Explained(f0, steps[..n], i, j);
      DimStaysExplained(f0, steps, i, j);
    }
  }

  lemma {:induction false} HistoryKeepsInv(f0: Fine, steps: seq<Step>)
    requires Initial(f0.core) && f0.pc.Asleep? && Possible(f0, steps)
    ensures Inv(f0, steps)
    decreases |steps|
  {
    if steps == [] {
    } else {
      HistoryKeepsInv(f0, steps[..|steps| - 1]);
      if After(f0, steps).pc.Sampled? {
        SamplePart(f0, steps);
      }
      if After(f0, steps).core.level.Dim? {
        DimPart(f0, steps);
      }
    }
  }

  /** In any history: a Dim level goes back to a decision with no input since, and if the last
      input is more recent than that pass's timeout, it fell between the pass's sample of the last
      input and its decision. */
  lemma EarlyDimNeedsRacingInput(f0: Fine, steps: seq<Step>)
    requires Initial(f0.core) && f0.pc.Asleep? && Possible(f0, steps)
    requires After(f0, steps).core.level.Dim?
    ensures exists i, j :: DimmedAt(f0, steps, i, j)
              && (After(f0, steps).core.Idle() < After(f0, steps[..j]).pc.timeout ==> InputBetween(steps, i, j))
  {
    HistoryKeepsInv(f0, steps);
    var i, j :| Explained(f0, steps, i, j);
    assert DimmedAt(f0, steps, i, j);
  }

  /** The race happens: an input between sample and decision of a pass that was about to dim leaves
      the level Dim in the very second of the input. */
  lemma RacingInputIsDimmed(f0: Fine, steps: seq<Step>, key: Option<uint16>)
    requires Possible(f0, steps) && WillDim(After(f0, steps)) && !After(f0, steps).core.phase.Spawned?
    ensures var raced := steps + [Other(Input(key))] + [Decide];
            && Possible(f0, raced)
            && After(f0, raced).core.level.Dim? && After(f0, raced).core.Idle() == 0
  {
    Extend(f0, steps, Other(Input(key)));
    Extend(f0, steps + [Other(Input(key))], Decide);
  }

  /** An early dim is never undone by the thread, and always by the next input. */
  lemma {:induction false} DimLastsUntilInput(f0: Fine, steps: seq<Step>, more: seq<Step>, key: Option<uint16>)
    requires Initial(f0.core) && f0.pc.Asleep? && Possible(f0, steps + more)
    requires Possible(f0, steps) && After(f0, steps).core.level.Dim?
    requires forall step <- more :: !IsInput(step)
    ensures After(f0, steps + more).core.level.Dim?
    ensures Possible(f0, steps + more + [Other(Input(key))])
    ensures After(f0, steps + more + [Other(Input(key))]).core.level.High?
    decreases |more|
  {
    if more == [] {
      assert steps + more == steps;
    } else {
      var n := |more| - 1;
      assert (steps + more)[..|steps + more| - 1] == steps + more[..n];
      assert more[n] in more;
      DimLastsUntilInput(f0, steps, more[..n], key);
    }
    HistoryKeepsInv(f0, steps + more);
    Extend(f0, steps + more, Other(Input(key)));
  }

  // ----- When the panel does not show what is selected

  /** A step of another thread that may change what is selected, or what the panel shows. */
  predicate Disturbs(step: Step) {
    step.Other? && (step.event.Input? || step.event.SetLow? || step.event.SetHigh? || step.event.SwitchMode?)
  }

  predicate DisturbedAfter(steps: seq<Step>, i: int) {
    exists k :: 0 <= i < k < |steps| && Disturbs(steps[k])
  }

  /** Step i is the latest in which the thread fetched a brightness. */
  predicate LatestFetch(steps: seq<Step>, i: int) {
    && 0 <= i < |steps|
    && steps[i] == Fetch
    && forall m :: i < m < |steps| ==> steps[m] != Fetch
  }

  /** The thread has fetched and not yet decided anew. */
  predicate HasFetched(f: Fine) {
    f.pc.Fetched? || (f.core.phase.Running? && !f.pc.Decided?)
  }

  /** What was fetched, on the panel or on its way there, is what is selected. */
  predicate ShowsSelected(f: Fine) {
    f.core.Selected() == if f.pc.Fetched? then f.pc.brightness else f.core.device
  }

  ghost predicate PanelKnown(f0: Fine, steps: seq<Step>, i: int)
    requires Possible(f0, steps)
  {
    LatestFetch(steps, i) && (!ShowsSelected(After(f0, steps)) ==> DisturbedAfter(steps, i))
  }

  lemma PanelStaysKnown(f0: Fine, steps: seq<Step>, i: int)
    requires steps != [] && Possible(f0, steps)
    requires HasFetched(After(f0, steps[..|steps| - 1])) && HasFetched(After(f0, steps))
    requires PanelKnown(f0, steps[..|steps| - 1], i) && steps[|steps| - 1] != Fetch
    ensures PanelKnown(f0, steps, i)
  {
    var n := |steps| - 1;
    if Disturbs(steps[n]) {
      assert DisturbedAfter(steps, i);
    } else {
      QuietStepKeepsShown(After(f0, steps[..n]), steps[n]);
      if DisturbedAfter(steps[..n], i) {
        var k :| 0 <= i < k < n && Disturbs(steps[..n][k]);
        assert Disturbs(steps[k]);
      }
    }
  }

  lemma QuietStepKeepsShown(f: Fine, step: Step)
    requires Enabled(f, step) && !Disturbs(step) && step != Fetch
    requires HasFetched(f) && HasFetched(Take(f, step))
    ensures ShowsSelected(Take(f, step)) == ShowsSelected(f)
  {
  }

  lemma {:induction false} PanelIsKnown(f0: Fine, steps: seq<Step>) returns (i: int)
    requires Initial(f0.core) && f0.pc.Asleep? && Possible(f0, steps) && HasFetched(After(f0, steps))
    ensures PanelKnown(f0, steps, i)
    decreases |steps|
  {
    var n := |steps| - 1;
    if steps[n] == Fetch {
      i := n;
    } else {
      i := PanelIsKnown(f0, steps[..n]);
      PanelStaysKnown(f0, steps, i);
    }
  }

  /** In any history: if between two passes the panel does not show what level, mode and settings
      select, then an input, a setting or a mode change came after the latest fetch. */
  lemma StalePanelNeedsLateChange(f0: Fine, steps: seq<Step>)
    requires Initial(f0.core) && f0.pc.Asleep? && Possible(f0, steps)
    requires After(f0, steps).pc.Asleep? && After(f0, steps).core.phase.Running?
    requires After(f0, steps).core.device != After(f0, steps).core.Selected()
    ensures exists i :: LatestFetch(steps, i) && DisturbedAfter(steps, i)
  {
    var i := PanelIsKnown(f0, steps);
    assert LatestFetch(steps, i) && DisturbedAfter(steps, i);
  }

  lemma {:induction false} FetchedStays(f0: Fine, steps: seq<Step>, more: seq<Step>)
    requires Possible(f0, steps + more) && Possible(f0, steps) && After(f0, steps).pc.Fetched?
    requires forall step <- more :: step.Other?
    ensures After(f0, steps + more).pc == After(f0, steps).pc
    decreases |more|
  {
    if more == [] {
      assert steps + more == steps;
    } else {
      var n := |more| - 1;
      assert (steps + more)[..|steps + more| - 1] == steps + more[..n];
      assert more[n] in more;
      FetchedStays(f0, steps, more[..n]);
    }
  }

  /** Conversely, whatever other threads do between fetch and push, and however much of it: the panel
      gets what was fetched, so it is right after the push exactly if that is still selected. */
  lemma LateChangesAreOverwritten(f0: Fine, steps: seq<Step>, more: seq<Step>)
    requires Possible(f0, steps + more) && Possible(f0, steps) && After(f0, steps).pc.Fetched?
    requires forall step <- more :: step.Other?
    ensures var raced := steps + more + [Push];
            && Possible(f0, raced)
            && After(f0, raced).core.device == After(f0, steps).pc.brightness
            && (After(f0, raced).core.device == After(f0, raced).core.Selected() <==>
                  After(f0, steps + more).core.Selected() == After(f0, steps).pc.brightness)
  {
    FetchedStays(f0, steps, more);
    Extend(f0, steps + more, Push);
  }

  /** For an input: the level is High, and the panel wrong exactly if the fetched brightness differs
      from the upper level after the key. */
  lemma RacingInputIsOverwritten(f0: Fine, steps: seq<Step>, key: Option<uint16>)
    requires Possible(f0, steps) && After(f0, steps).pc.Fetched? && !After(f0, steps).core.phase.Spawned?
    ensures var raced := steps + [Other(Input(key))] + [Push];
            && Possible(f0, raced)
            && After(f0, raced).core.level.High?
            && After(f0, raced).core.device == After(f0, steps).pc.brightness
            && (After(f0, raced).core.device != After(f0, raced).core.Selected() <==>
                  After(f0, steps).pc.brightness != AfterKey(After(f0, steps).core.Current().high, key))
  {
    Extend(f0, steps, Other(Input(key)));
    LateChangesAreOverwritten(f0, steps, [Other(Input(key))]);
  }
}
