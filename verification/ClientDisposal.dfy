/** kmod/framework_evdev_thread.c: any number of calls of the client destructor and of the destroy
    function may try to take one evdev client off its device. Each does so under the device's list
    lock, after checking that the client is not revoked, and revokes it afterwards. */
module ClientDisposal {
  import opened MachineIntegers

  /** Where a call is; from Checking to Unlocking it owns the list lock. */
  datatype Pc = Waiting | Checking | Disposing | Revoking | Unlocking | Done

  datatype State = State(revoked: bool, owner: Option<nat>, disposals: nat, foreign: bool, calls: seq<Pc>)

  /** A call takes a step, or evdev itself revokes the client (the device goes away). */
  datatype Event = Call(i: nat) | ForeignRevoke

  predicate Locked(pc: Pc) {
    pc.Checking? || pc.Disposing? || pc.Revoking? || pc.Unlocking?
  }

  predicate Enabled(s: State, e: Event) {
    match e
    case Call(i) => i < |s.calls| && !s.calls[i].Done? && (s.calls[i].Waiting? ==> s.owner.None?)
    case ForeignRevoke => s.owner.None?
  }

  function Step(s: State, e: Event): State
    requires Enabled(s, e)
  {
    match e
    case ForeignRevoke => s.(revoked := true, foreign := true)
    case Call(i) =>
      match s.calls[i]
      case Waiting => s.(owner := Some(i), calls := s.calls[i := Checking])
      case Checking => s.(calls := s.calls[i := if s.revoked then Unlocking else Disposing])
      case Disposing => s.(disposals := s.disposals + 1, calls := s.calls[i := Revoking])
      case Revoking => s.(revoked := true, calls := s.calls[i := Unlocking])
      case Unlocking => s.(owner := None, calls := s.calls[i := Done])
  }

  function Start(n: nat, revoked: bool): State {
    State(revoked, None, 0, revoked, seq(n, _ => Waiting))
  }

  predicate Legal(s: State, events: seq<Event>)
    decreases |events|
  {
    events == [] || (Enabled(s, events[0]) && Legal(Step(s, events[0]), events[1..]))
  }

  function Run(s: State, events: seq<Event>): State
    requires Legal(s, events)
    decreases |events|
  {
    if events == [] then s else Run(Step(s, events[0]), events[1..])
  }

  /** The client as mutable state, with the calls that are working on it. */
  class Client {
    var revoked: bool
    var owner: Option<nat>
    ghost var disposals: nat
    ghost var foreign: bool
    const calls: array<Pc>

    ghost function View(): State
      reads this, calls
    {
      State(revoked, owner, disposals, foreign, calls[..])
    }

    constructor (n: nat, revoked: bool)
      ensures View() == Start(n, revoked) && fresh(calls)
    {
      this.revoked, owner, disposals, foreign := revoked, None, 0, revoked;
      calls := new Pc[n](_ => Waiting);
    }

    method StepCall(i: nat)
      requires Enabled(View(), Call(i))
      modifies this, calls
      ensures View() == Step(old(View()), Call(i))
    {
      match calls[i]
      case Waiting =>
        owner := Some(i);
        calls[i] := Checking;
      case Checking =>
        calls[i] := if !revoked then Disposing else Unlocking;
      case Disposing =>
        disposals := disposals + 1;
        calls[i] := Revoking;
      case Revoking =>
        revoked := true;
        calls[i] := Unlocking;
      case Unlocking =>
        owner := None;
        calls[i] := Done;
    }

    /** evdev revokes the client on its own, under the list lock. */
    method RevokeFromOutside()
      requires Enabled(View(), ForeignRevoke)
      modifies this
      ensures View() == Step(old(View()), ForeignRevoke)
    {
      revoked, foreign := true, true;
    }

    /** Any interleaving of the calls, played on the object. */
    method Drive(events: seq<Event>)
      requires Inv(View()) && Legal(View(), events)
      modifies this, calls
      ensures View() == Run(old(View()), events) && Inv(View())
      ensures disposals <= 1 && (old(revoked) ==> disposals == old(disposals))
    {
      ghost var start := View();
      var i := 0;
      assert events[0..] == events;
      while i < |events|
        invariant 0 <= i <= |events|
        invariant Legal(View(), events[i..]) && Run(View(), events[i..]) == Run(start, events)
      {
        assert events[i..][0] == events[i] && events[i..][1..] == events[i + 1..];
        match events[i] {
          case Call(k) => StepCall(k);
          case ForeignRevoke => RevokeFromOutside();
        }
        i := i + 1;
      }
      RunKeepsInv(start, events);
    }
  }

  predicate Inv(s: State) {
    && (forall i :: 0 <= i < |s.calls| ==> (s.owner == Some(i) <==> Locked(s.calls[i])))
    && (s.owner.Some? ==> s.owner.value < |s.calls|)
    && s.disposals <= 1
    && (s.disposals == 1 ==> s.revoked || (s.owner.Some? && s.calls[s.owner.value].Revoking?))
    && (s.revoked ==> s.foreign || s.disposals == 1)
    && (forall i :: 0 <= i < |s.calls| ==>
          && (s.calls[i].Disposing? ==> !s.revoked && s.disposals == 0)
          && (s.calls[i].Revoking? ==> !s.revoked && s.disposals == 1)
          && (s.calls[i].Unlocking? || s.calls[i].Done? ==> s.revoked))
  }

  lemma StepKeepsInv(s: State, e: Event)
    requires Inv(s) && Enabled(s, e)
    ensures Inv(Step(s, e)) && |Step(s, e).calls| == |s.calls|
    ensures Step(s, e).foreign <==> s.foreign || e.ForeignRevoke?
    ensures s.revoked ==> Step(s, e).revoked && Step(s, e).disposals == s.disposals
  {
  }

  lemma {:induction false} RunKeepsInv(s: State, events: seq<Event>)
    requires Inv(s) && Legal(s, events)
    ensures Inv(Run(s, events)) && |Run(s, events).calls| == |s.calls|
    ensures Run(s, events).foreign <==> s.foreign || ForeignRevoke in events
    ensures s.revoked ==> Run(s, events).revoked && Run(s, events).disposals == s.disposals
    decreases |events|
  {
    if events == [] {
    } else {
      StepKeepsInv(s, events[0]);
      RunKeepsInv(Step(s, events[0]), events[1..]);
    }
  }

  /** However the calls interleave, the client is disposed of at most once; exactly once if any call
      has come through and evdev did not revoke the client itself. */
  lemma DisposedAtMostOnce(n: nat, revoked: bool, events: seq<Event>)
    requires Legal(Start(n, revoked), events)
    ensures var s := Run(Start(n, revoked), events);
            && s.disposals <= 1
            && (!revoked && ForeignRevoke !in events && (exists i :: 0 <= i < |s.calls| && s.calls[i].Done?) ==>
                  s.disposals == 1)
  {
    RunKeepsInv(Start(n, revoked), events);
  }

  /** A revocation by evdev itself is final too: whatever the calls do before and after it, the client
      stays revoked, and it is not disposed of unless a call had already begun to. */
  lemma RevokedFromOutside(n: nat, before: seq<Event>, after: seq<Event>)
    requires Legal(Start(n, false), before) && Enabled(Run(Start(n, false), before), ForeignRevoke)
    requires Legal(Step(Run(Start(n, false), before), ForeignRevoke), after)
    ensures var s := Run(Step(Run(Start(n, false), before), ForeignRevoke), after);
            s.revoked && s.disposals == Run(Start(n, false), before).disposals
  {
    RunKeepsInv(Start(n, false), before);
    StepKeepsInv(Run(Start(n, false), before), ForeignRevoke);
    RunKeepsInv(Step(Run(Start(n, false), before), ForeignRevoke), after);
  }

  /** Once the client is revoked, by whomever, no further disposal happens. */
  lemma NoDisposalOnceRevoked(n: nat, revoked: bool, before: seq<Event>, after: seq<Event>)
    requires Legal(Start(n, revoked), before) && Legal(Run(Start(n, revoked), before), after)
    requires Run(Start(n, revoked), before).revoked
    ensures Run(Run(Start(n, revoked), before), after).disposals == Run(Start(n, revoked), before).disposals
  {
    RunKeepsInv(Start(n, revoked), before);
    RunKeepsInv(Run(Start(n, revoked), before), after);
  }
}
