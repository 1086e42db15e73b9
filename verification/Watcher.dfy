/** dbus/framework_debus.c, second half: from parsed signals to the players' list and the printed
    lines, and what the two say about any stream of messages. */
module Watcher {
  import opened MachineIntegers
  import opened Signals
  import opened PlayerList

  /** A printed line. The program prints no name; here it tells whose state the line reports. */
  datatype Notice = Notice(name: string, started: bool)

  datatype State = State(entries: seq<Entry>, log: seq<Notice>)

  const EMPTY: State := State([], [])

  // ----- The handlers on values

  /** What is done with the entry that `find_player` has found or made. */
  function StartAt(w: State, i: nat): State
    requires i < |w.entries|
  {
    var e := w.entries[i];
    if e.state == 0 then State(w.entries[i := e.(state := 1)], w.log + [Notice(e.name, true)]) else w
  }

  function StopAt(w: State, i: nat): State
    requires i < |w.entries|
  {
    var e := w.entries[i];
    if e.state == 1 then State(w.entries[..i] + w.entries[i + 1..], w.log + [Notice(e.name, false)]) else w
  }

  function Start(w: State, name: string): State {
    StartAt(w.(entries := Found(w.entries, name)), FoundAt(w.entries, name))
  }

  function Stop(w: State, name: string): State {
    StopAt(w.(entries := Found(w.entries, name)), FoundAt(w.entries, name))
  }

  /** State names with their handlers: true for `signal_start`, false for `signal_stop`. */
  const HANDLERS: seq<(string, bool)> := [("PLAYING", true), ("PAUSED", false), ("STOPPED", false)]

  /** The rows of the table from k on, each run if it matches. */
  function HandleFrom(w: State, f: Fields, k: nat): State
    decreases |HANDLERS| - k
  {
    if k >= |HANDLERS| then w
    else if !SameName(f.status, HANDLERS[k].0) then HandleFrom(w, f, k + 1)
    else if HANDLERS[k].1 then HandleFrom(Start(w, f.name), f, k + 1)
    else HandleFrom(Stop(w, f.name), f, k + 1)
  }

  function Handle(w: State, f: Fields): State {
    if f.status == "" then w else HandleFrom(w, f, 0)
  }

  /** A message taken off the bus. The program notes the sender, and makes no use of it. */
  datatype Message = Message(isPropertiesChanged: bool, sender: string, args: seq<Arg>)

  function Parsed(m: Message): Fields {
    if m.isPropertiesChanged then RecordAll(NOTHING, Leaves(m.args, 0, 0)) else NOTHING
  }

  function Run(msgs: seq<Message>): State {
    if msgs == [] then EMPTY
    else
      var n := |msgs| - 1;
      Handle(Run(msgs[..n]), Parsed(msgs[n]))
  }

  // ----- The program

  class Watcher {
    const list: List
    var log: seq<Notice>

    ghost predicate Valid()
      reads this, list, list.nodes
    {
      list.Valid()
    }

    ghost function View(): State
      reads this, list, list.nodes
    {
      State(list.Entries(), log)
    }

    constructor ()
      ensures Valid() && View() == EMPTY && fresh(list) && list.nodes == [] && list.made == {}
    {
      list := new List();
      log := [];
    }

    method SignalStart(name: string)
      requires Valid()
      modifies this, list, list.nodes
      ensures Valid() && View() == Start(old(View()), name)
      ensures forall p <- list.nodes :: p in old(list.nodes) || fresh(p)
    {
      var player, k := list.FindPlayer(name);
      StartPlaying(player, k);
    }

    /** `signal_start` once it has its player. */
    method StartPlaying(player: Player, ghost k: nat)
      requires Valid() && k < |list.nodes| && list.nodes[k] == player
      modifies this, player`state
      ensures Valid() && View() == old(StartAt(View(), k))
    {
      if player.state == 0 {
        list.SetState(player, 1, k);
        log := log + [Notice(player.name, true)];
      }
    }

    method SignalStop(name: string)
      requires Valid()
      modifies this, list, list.nodes
      ensures Valid() && View() == Stop(old(View()), name)
      ensures forall p <- list.nodes :: p in old(list.nodes) || fresh(p)
    {
      var player, k := list.FindPlayer(name);
      StopPlaying(player, k);
    }

    /** `signal_stop` once it has its player. */
    method StopPlaying(player: Player, ghost k: nat)
      requires Valid() && k < |list.nodes| && list.nodes[k] == player
      modifies this, list, list.nodes
      ensures Valid() && View() == old(StopAt(View(), k))
      ensures forall p <- list.nodes :: p in old(list.nodes)
    {
      if player.state == 1 {
        log := log + [Notice(player.name, false)];
        list.StopAndRemove(player, k);
      }
    }

    method ChooseHandler(parsed: ParsedSignal)
      requires Valid() && parsed.Valid()
      modifies this, list, list.nodes
      ensures Valid() && View() == Handle(old(View()), parsed.View())
      ensures forall p <- list.nodes :: p in old(list.nodes) || fresh(p)
    {
      var f := parsed.View();
      if f.status == "" {
        return;
      }
      ghost var goal := HandleFrom(View(), f, 0);
      var counter := 0;
      while counter < |HANDLERS|
        invariant 0 <= counter <= |HANDLERS|
        invariant Valid() && HandleFrom(View(), f, counter) == goal
        invariant forall p <- list.nodes :: p in old(list.nodes) || fresh(p)
      {
        if SameName(f.status, HANDLERS[counter].0) {
          if HANDLERS[counter].1 {
            SignalStart(f.name);
          } else {
            SignalStop(f.name);
          }
        }
        counter := counter + 1;
      }
    }

    /** One round of the main loop, on a message. A signal without arguments is not parsed. */
    method Receive(m: Message, parsed: ParsedSignal)
      requires Valid() && parsed.Valid()
      modifies this, list, list.nodes, parsed.name, parsed.param2, parsed.status
      ensures Valid() && parsed.Valid() && View() == Handle(old(View()), Parsed(m))
      ensures forall p <- list.nodes :: p in old(list.nodes) || fresh(p)
    {
      Parse(m, parsed);
      ChooseHandler(parsed);
    }
  }

  method Parse(m: Message, parsed: ParsedSignal)
    requires parsed.Valid()
    modifies parsed.name, parsed.param2, parsed.status
    ensures parsed.Valid() && parsed.View() == Parsed(m)
  {
    parsed.Reset();
    if m.isPropertiesChanged && m.args != [] {
      var _ := parsed.ParseIter(m.args, 0, 0);
    }
  }

  /** What the bus returned is a message, or nothing yet. */
  function AfterPolls(polls: seq<Option<Message>>, n: nat): State
    requires n <= |polls|
  {
    if n == 0 then EMPTY
    else
      match polls[n - 1]
      case None => AfterPolls(polls, n - 1)
      case Some(m) => Handle(AfterPolls(polls, n - 1), Parsed(m))
  }

  function Messages(polls: seq<Option<Message>>): seq<Message> {
    if polls == [] then []
    else
      var n := |polls| - 1;
      Messages(polls[..n]) + (if polls[n].Some? then [polls[n].value] else [])
  }

  lemma {:induction false} PollsAreMessages(polls: seq<Option<Message>>, n: nat)
    requires n <= |polls|
    ensures AfterPolls(polls, n) == Run(Messages(polls[..n]))
  {
    if n == 0 {
    } else {
      PollsAreMessages(polls, n - 1);
      assert polls[..n][..n - 1] == polls[..n - 1];
      var msgs := Messages(polls[..n - 1]);
      match polls[n - 1]
      case None => assert msgs + [] == msgs;
      case Some(m) => assert (msgs + [m])[..|msgs|] == msgs;
    }
  }

  /** The main loop. */
  method Watch(watcher: Watcher, parsed: ParsedSignal, polls: seq<Option<Message>>)
    requires watcher.Valid() && parsed.Valid() && watcher.View() == EMPTY
    modifies watcher, watcher.list, watcher.list.nodes, parsed.name, parsed.param2, parsed.status
    ensures watcher.Valid() && watcher.View() == AfterPolls(polls, |polls|)
    ensures forall p <- watcher.list.nodes :: p in old(watcher.list.nodes) || fresh(p)
  {
    var i := 0;
    while i < |polls|
      invariant 0 <= i <= |polls|
      invariant watcher.Valid() && parsed.Valid()
      invariant watcher.View() == AfterPolls(polls, i)
      invariant forall p <- watcher.list.nodes :: p in old(watcher.list.nodes) || fresh(p)
    {
      if polls[i].Some? {
        watcher.Receive(polls[i].value, parsed);
      }
      i := i + 1;
    }
  }

  /** `main`, from the first poll to the end: what it prints, and all players freed. */
  method Session(polls: seq<Option<Message>>) returns (log: seq<Notice>, watcher: Watcher)
    ensures log == Run(Messages(polls)).log
    ensures watcher.list.nodes == [] && watcher.list.freed == watcher.list.made
  {
    watcher := new Watcher();
    var parsed := new ParsedSignal();
    Watch(watcher, parsed, polls);
    PollsAreMessages(polls, |polls|);
    assert polls[..|polls|] == polls;
    log := watcher.log;
    watcher.list.Clear();
  }
}
