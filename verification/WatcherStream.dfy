/** What the watcher's list and printed lines say after any stream of messages: the list holds what
    was last heard from each name, and the lines are the changes between playing and not playing. */
module WatcherStream {
  import opened MachineIntegers
  import opened Signals
  import opened PlayerList
  import opened Watcher

  // ----- The simple description

  /** What a status says: playing, not playing, or nothing the watcher knows. */
  function Meaning(status: string): Option<bool> {
    if status == "PLAYING" then Some(true)
    else if status == "PAUSED" || status == "STOPPED" then Some(false)
    else None
  }

  /** The recognised statuses received under a name. */
  function Heard(msgs: seq<Message>, name: string): seq<bool> {
    if msgs == [] then []
    else
      var n := |msgs| - 1;
      var f := Parsed(msgs[n]);
      match Meaning(f.status)
      case None => Heard(msgs[..n], name)
      case Some(play) => if Truncated(f.name) == name then Heard(msgs[..n], name) + [play] else Heard(msgs[..n], name)
  }

  /** A set of names: "playing" puts a name in, "paused" and "stopped" take it out. */
  function Playing(msgs: seq<Message>): set<string> {
    if msgs == [] then {}
    else
      var n := |msgs| - 1;
      var f := Parsed(msgs[n]);
      match Meaning(f.status)
      case None => Playing(msgs[..n])
      case Some(play) => if play then Playing(msgs[..n]) + {Truncated(f.name)} else Playing(msgs[..n]) - {Truncated(f.name)}
  }

  predicate EndsPlaying(heard: seq<bool>) {
    heard != [] && heard[|heard| - 1]
  }

  /** The changes in what was heard, where before anything is heard nothing plays. */
  function Changes(heard: seq<bool>): seq<bool> {
    if heard == [] then []
    else
      var n := |heard| - 1;
      Changes(heard[..n]) + (if heard[n] == EndsPlaying(heard[..n]) then [] else [heard[n]])
  }

  /** The state a name is listed with, None if it is not listed. A name is dropped by the stop that
      ends its playing; any other stop lists it, or leaves it listed, as not playing. */
  function StateOf(heard: seq<bool>): Option<uint8> {
    if heard == [] then None
    else if EndsPlaying(heard) then Some(1)
    else if EndsPlaying(heard[..|heard| - 1]) then None
    else Some(0)
  }

  /** The lines printed on behalf of a name. */
  function Lines(log: seq<Notice>, name: string): seq<bool> {
    if log == [] then []
    else
      var n := |log| - 1;
      Lines(log[..n], name) + (if log[n].name == name then [log[n].started] else [])
  }

  function Count(log: seq<Notice>, started: bool): nat {
    if log == [] then 0
    else
      var n := |log| - 1;
      Count(log[..n], started) + (if log[n].started == started then 1 else 0)
  }

  // ----- One message

  /** No name twice, names as the buffers hold them, and states 0 and 1 only. */
  predicate Sound(entries: seq<Entry>) {
    && (forall i, j :: 0 <= i < j < |entries| ==> entries[i].name != entries[j].name)
    && (forall e <- entries :: Truncated(e.name) == e.name && e.state <= 1)
  }

  lemma HandlersByMeaning(w: State, f: Fields)
    ensures Handle(w, f) ==
            match Meaning(f.status)
            case None => w
            case Some(play) => if play then Start(w, f.name) else Stop(w, f.name)
  {
  }

  /** Looking a name up leaves every entry, and makes sure there is one for the name. */
  lemma FoundEffect(entries: seq<Entry>, name: string)
    requires Sound(entries)
    ensures Sound(Found(entries, name)) && Found(entries, name)[FoundAt(entries, name)].name == Truncated(name)
    ensures forall e: Entry :: e.name != Truncated(name) ==> (e in Found(entries, name) <==> e in entries)
    ensures forall s: uint8 :: s != 0 ==> (Entry(Truncated(name), s) in Found(entries, name) <==> Entry(Truncated(name), s) in entries)
  {
  }

  lemma ReplaceEffect(entries: seq<Entry>, i: nat, state: uint8)
    requires Sound(entries) && i < |entries| && state <= 1
    ensures var after := entries[i := entries[i].(state := state)];
            && Sound(after)
            && forall e: Entry :: e in after <==>
                 if e.name == entries[i].name then e.state == state else e in entries
  {
    var after := entries[i := entries[i].(state := state)];
    assert entries[i] in entries;
    forall e: Entry
      ensures e in after <==> if e.name == entries[i].name then e.state == state else e in entries
    {
      assert after[i] == Entry(entries[i].name, state);
      if e in entries && e.name != entries[i].name {
        var j :| 0 <= j < |entries| && entries[j] == e;
        assert after[j] == e;
      }
    }
  }

  lemma DropEffect(entries: seq<Entry>, i: nat)
    requires Sound(entries) && i < |entries|
    ensures var after := entries[..i] + entries[i + 1..];
            && Sound(after)
            && forall e: Entry :: e in after <==> e.name != entries[i].name && e in entries
  {
  }

  lemma StartEffect(w: State, name: string)
    requires Sound(w.entries)
    ensures var n := Truncated(name);
            var after := Start(w, name);
            && Sound(after.entries)
            && (forall e: Entry :: e in after.entries <==> if e.name == n then e.state == 1 else e in w.entries)
            && after.log == w.log + (if Entry(n, 1) in w.entries then [] else [Notice(n, true)])
  {
    FoundEffect(w.entries, name);
    var entries, i := Found(w.entries, name), FoundAt(w.entries, name);
    assert entries[i] in entries;
    ReplaceEffect(entries, i, 1);
    assert Start(w, name).entries == entries[i := entries[i].(state := 1)];
    assert w.log + [] == w.log;
  }

  lemma StopEffect(w: State, name: string)
    requires Sound(w.entries)
    ensures var n := Truncated(name);
            var after := Stop(w, name);
            && Sound(after.entries)
            && (forall e: Entry :: e in after.entries <==>
                  if e.name == n then e.state == 0 && Entry(n, 1) !in w.entries else e in w.entries)
            && after.log == w.log + (if Entry(n, 1) in w.entries then [Notice(n, false)] else [])
  {
    FoundEffect(w.entries, name);
    var entries, i := Found(w.entries, name), FoundAt(w.entries, name);
    assert entries[i] in entries;
    if entries[i].state == 1 {
      DropEffect(entries, i);
    } else {
      ReplaceEffect(entries, i, 0);
      assert entries[i := entries[i].(state := 0)] == entries;
    }
    assert w.log + [] == w.log;
  }

  // ----- Any stream

  lemma HeardMore(heard: seq<bool>, play: bool)
    ensures EndsPlaying(heard + [play]) == play
    ensures StateOf(heard + [play]) == if play then Some(1) else if StateOf(heard) == Some(1) then None else Some(0)
    ensures Changes(heard + [play]) == Changes(heard) + (if play == (StateOf(heard) == Some(1)) then [] else [play])
  {
  }

  lemma LogMore(log: seq<Notice>, notice: Notice, name: string)
    ensures Lines(log + [notice], name) == Lines(log, name) + (if notice.name == name then [notice.started] else [])
    ensures Count(log + [notice], true) - Count(log + [notice], false) ==
            Count(log, true) - Count(log, false) + (if notice.started then 1 else -1)
  {
  }

  /** List and lines are right about one name. */
  predicate Tells(w: State, heard: seq<bool>, name: string) {
    && (forall state: uint8 :: Entry(name, state) in w.entries <==> StateOf(heard) == Some(state))
    && Lines(w.log, name) == Changes(heard)
  }

  lemma {:induction false} HandlersTell(w: State, from: string, play: bool, heard: seq<bool>, name: string)
    requires Sound(w.entries) && Tells(w, heard, name)
    ensures var after := if play then Start(w, from) else Stop(w, from);
            && Sound(after.entries)
            && Tells(after, if Truncated(from) == name then heard + [play] else heard, name)
  {
    HeardMore(heard, play);
    LogMore(w.log, Notice(Truncated(from), play), name);
    assert w.log + [] == w.log && Changes(heard) + [] == Changes(heard);
    if play {
      StartEffect(w, from);
    } else {
      StopEffect(w, from);
    }
  }

  /** The whole list, and the lines of every name, from what was heard. */
  lemma {:induction false} ListAndLinesTellWhatWasHeard(msgs: seq<Message>)
    ensures Sound(Run(msgs).entries) && forall name :: Tells(Run(msgs), Heard(msgs, name), name)
  {
    if msgs == [] {
    } else {
      var n := |msgs| - 1;
      var w, f := Run(msgs[..n]), Parsed(msgs[n]);
      ListAndLinesTellWhatWasHeard(msgs[..n]);
      HandlersByMeaning(w, f);
      forall name
        ensures Sound(Run(msgs).entries) && Tells(Run(msgs), Heard(msgs, name), name)
      {
        if Meaning(f.status).Some? {
          HandlersTell(w, f.name, Meaning(f.status).value, Heard(msgs[..n], name), name);
        }
      }
      assert Tells(Run(msgs), Heard(msgs, ""), "");
    }
  }

  /** A message of another kind, or without arguments, changes nothing. */
  lemma OtherMessagesAreIgnored(msgs: seq<Message>, m: Message)
    requires !m.isPropertiesChanged || m.args == []
    ensures Run(msgs + [m]) == Run(msgs)
  {
    assert (msgs + [m])[..|msgs|] == msgs;
    HandlersByMeaning(Run(msgs), NOTHING);
  }

  /** New names are put in front; the others keep their order, whatever is received. */
  lemma NewestInFront(msgs: seq<Message>, m: Message)
    ensures var before, after := Run(msgs).entries, Run(msgs + [m]).entries;
            var names, now := Names(before), Names(after);
            || now == names
            || (now == [Truncated(Parsed(m).name)] + names && Truncated(Parsed(m).name) !in names)
            || exists i :: 0 <= i < |names| && names[i] == Truncated(Parsed(m).name) && now == names[..i] + names[i + 1..]
  {
    assert (msgs + [m])[..|msgs|] == msgs;
    var w, f := Run(msgs), Parsed(m);
    ListAndLinesTellWhatWasHeard(msgs);
    HandlersByMeaning(w, f);
    if Meaning(f.status).Some? {
      HandlersKeepOrder(w, f.name);
    }
  }

  function Names(entries: seq<Entry>): seq<string> {
    seq(|entries|, i requires 0 <= i < |entries| => entries[i].name)
  }

  lemma FoundKeepsOrder(entries: seq<Entry>, name: string)
    requires Sound(entries)
    ensures var n, found := Truncated(name), Names(Found(entries, name));
            found == Names(entries) || (found == [n] + Names(entries) && n !in Names(entries))
    ensures Names(Found(entries, name))[FoundAt(entries, name)] == Truncated(name)
  {
    var i := Find(entries, name);
    if i == |entries| {
      forall k | 0 <= k < |entries|
        ensures Names(entries)[k] != Truncated(name)
      {
        assert entries[k] in entries;
      }
      NamesInFront(entries, Entry(Truncated(name), 0));
    } else {
      assert entries[i] in entries;
    }
  }

  lemma NamesInFront(entries: seq<Entry>, e: Entry)
    ensures Names([e] + entries) == [e.name] + Names(entries)
  {
  }

  lemma NamesWithout(entries: seq<Entry>, i: nat)
    requires i < |entries|
    ensures Names(entries[..i] + entries[i + 1..]) == Names(entries)[..i] + Names(entries)[i + 1..]
  {
  }

  lemma NamesKept(entries: seq<Entry>, i: nat, state: uint8)
    requires i < |entries|
    ensures Names(entries[i := entries[i].(state := state)]) == Names(entries)
  {
  }

  lemma HandlersKeepOrder(w: State, name: string)
    requires Sound(w.entries)
    ensures var n, names := Truncated(name), Names(w.entries);
            var started := Names(Start(w, name).entries);
            started == names || (started == [n] + names && n !in names)
    ensures var n, names := Truncated(name), Names(w.entries);
            var stopped := Names(Stop(w, name).entries);
            || stopped == names
            || (stopped == [n] + names && n !in names)
            || exists i :: 0 <= i < |names| && names[i] == n && stopped == names[..i] + names[i + 1..]
  {
    var entries, i := Found(w.entries, name), FoundAt(w.entries, name);
    FoundKeepsOrder(w.entries, name);
    NamesKept(entries, i, 1);
    if entries[i].state == 1 {
      assert Find(w.entries, name) < |w.entries|;
      NamesWithout(entries, i);
      assert Names(w.entries)[i] == Truncated(name);
    }
  }

  /** The names listed as playing are the plain set of playing names, which are those whose latest
      recognised status is "playing". */
  lemma {:induction false} ListedAsPlayingIsPlaying(msgs: seq<Message>, name: string)
    ensures name in Playing(msgs) <==> EndsPlaying(Heard(msgs, name))
    ensures name in Playing(msgs) <==> Entry(name, 1) in Run(msgs).entries
  {
    ListAndLinesTellWhatWasHeard(msgs);
    if msgs == [] {
    } else {
      ListedAsPlayingIsPlaying(msgs[..|msgs| - 1], name);
    }
  }

  /** "Started" lines less "stopped" lines is the number of names playing. */
  lemma {:induction false} LinesBalance(msgs: seq<Message>)
    ensures Count(Run(msgs).log, true) - Count(Run(msgs).log, false) == |Playing(msgs)|
  {
    if msgs == [] {
    } else {
      var n := |msgs| - 1;
      var w, f := Run(msgs[..n]), Parsed(msgs[n]);
      LinesBalance(msgs[..n]);
      HandlersByMeaning(w, f);
      if Meaning(f.status).Some? {
        ListAndLinesTellWhatWasHeard(msgs[..n]);
        ListedAsPlayingIsPlaying(msgs[..n], Truncated(f.name));
        LogMore(w.log, Notice(Truncated(f.name), Meaning(f.status).value), "");
        if Meaning(f.status).value {
          StartEffect(w, f.name);
        } else {
          StopEffect(w, f.name);
        }
      }
    }
  }

  /** For each name the lines alternate, "started" first, and end on "started" while it plays. */
  lemma {:induction false} ChangesAlternate(heard: seq<bool>)
    ensures forall i :: 0 <= i < |Changes(heard)| ==> Changes(heard)[i] == (i % 2 == 0)
    ensures |Changes(heard)| % 2 == (if EndsPlaying(heard) then 1 else 0)
  {
    if heard == [] {
    } else {
      ChangesAlternate(heard[..|heard| - 1]);
    }
  }

  lemma {:induction false} LinesAlternate(msgs: seq<Message>, name: string)
    ensures var lines := Lines(Run(msgs).log, name);
            && (forall i :: 0 <= i < |lines| ==> lines[i] == (i % 2 == 0))
            && (|lines| % 2 == 1 <==> name in Playing(msgs))
  {
    ListAndLinesTellWhatWasHeard(msgs);
    ListedAsPlayingIsPlaying(msgs, name);
    ChangesAlternate(Heard(msgs, name));
  }
}
