/** dbus/framework_debus.c with several players: a player's status reaches the watcher under the name
    of the interface, which all players share. */
module WatcherPlayers {
  import opened MachineIntegers
  import opened Signals
  import opened PlayerList
  import opened Watcher
  import opened WatcherStream

  /** One PropertiesChanged signal of an interface: who sends it, and what it carries. */
  datatype Change = Change(sender: string, changed: seq<(string, Arg)>, invalidated: seq<string>) {
    predicate Shallow() {
      forall i :: 0 <= i < |changed| ==> HeightOf(changed[i].1) <= 250
    }

    function AsMessage(iface: string): Message {
      Message(true, sender, PropertiesChanged(iface, changed, invalidated))
    }

    /** What it says about its sender. */
    function Says(): Option<bool> {
      Meaning(UpperOr(LastText(changed), ""))
    }
  }

  predicate AllShallow(changes: seq<Change>) {
    forall i :: 0 <= i < |changes| ==> changes[i].Shallow()
  }

  function FromInterface(iface: string, changes: seq<Change>): seq<Message> {
    if changes == [] then []
    else
      var n := |changes| - 1;
      FromInterface(iface, changes[..n]) + [changes[n].AsMessage(iface)]
  }

  function MoreHeard(heard: seq<bool>, says: Option<bool>): seq<bool> {
    match says
    case None => heard
    case Some(play) => heard + [play]
  }

  /** The recognised statuses of one player. */
  function HeardFrom(changes: seq<Change>, player: string): seq<bool> {
    if changes == [] then []
    else
      var n := |changes| - 1;
      if changes[n].sender == player then MoreHeard(HeardFrom(changes[..n], player), changes[n].Says())
      else HeardFrom(changes[..n], player)
  }

  /** Those of all players, as they come. */
  function HeardFromAll(changes: seq<Change>): seq<bool> {
    if changes == [] then []
    else MoreHeard(HeardFromAll(changes[..|changes| - 1]), changes[|changes| - 1].Says())
  }

  ghost predicate SomebodyPlays(changes: seq<Change>) {
    exists player :: EndsPlaying(HeardFrom(changes, player))
  }

  ghost predicate ListsPlaying(msgs: seq<Message>) {
    exists name :: Entry(name, 1) in Run(msgs).entries
  }

  /** Under the interface's name the watcher hears all players, under other names nobody. */
  lemma {:induction false} AllAreHeardAsOne(iface: string, changes: seq<Change>)
    requires AllShallow(changes)
    ensures forall name ::
              Heard(FromInterface(iface, changes), name) == if name == Stored(iface) then HeardFromAll(changes) else []
  {
    if changes == [] {
    } else {
      var n := |changes| - 1;
      var before, c := FromInterface(iface, changes[..n]), changes[n];
      AllAreHeardAsOne(iface, changes[..n]);
      assert (before + [c.AsMessage(iface)])[..|before|] == before;
      assert c.Shallow();
      PropertiesChangedParsed(iface, c.changed, c.invalidated);
    }
  }

  /** Whoever sends, and whatever is sent, the list has at most one entry, named after the interface;
      it is listed as playing exactly if the latest status of any player says so. */
  lemma {:induction false} PlayersShareOneEntry(iface: string, changes: seq<Change>)
    requires AllShallow(changes)
    ensures forall e <- Run(FromInterface(iface, changes)).entries :: e.name == Stored(iface)
    ensures |Run(FromInterface(iface, changes)).entries| <= 1
    ensures ListsPlaying(FromInterface(iface, changes)) <==> EndsPlaying(HeardFromAll(changes))
  {
    var msgs := FromInterface(iface, changes);
    AllAreHeardAsOne(iface, changes);
    ListAndLinesTellWhatWasHeard(msgs);
    forall e | e in Run(msgs).entries
      ensures e.name == Stored(iface)
    {
      assert Tells(Run(msgs), Heard(msgs, e.name), e.name) && Entry(e.name, e.state) == e;
    }
    if |Run(msgs).entries| >= 2 {
      FirstTwoDiffer(Run(msgs).entries);
    }
    ListedAsPlayingIsPlaying(msgs, Stored(iface));
  }

  lemma FirstTwoDiffer(entries: seq<Entry>)
    requires Sound(entries) && |entries| >= 2
    ensures entries[0].name != entries[1].name && entries[0] in entries && entries[1] in entries
  {
  }

  // ----- One player's stop

  /** A stop by one player ends the playing of all in the list, and changes nothing in what was heard
      from the others. */
  lemma OnePlayersStopEndsAll(iface: string, changes: seq<Change>, stop: Change)
    requires AllShallow(changes) && stop.Shallow() && stop.Says() == Some(false)
    ensures !ListsPlaying(FromInterface(iface, changes + [stop]))
    ensures forall player :: player != stop.sender ==> HeardFrom(changes + [stop], player) == HeardFrom(changes, player)
  {
    assert (changes + [stop])[..|changes|] == changes;
    PlayersShareOneEntry(iface, changes + [stop]);
  }

  /** The list says that something plays only if somebody does. */
  lemma {:induction false} LatestIsSomebodys(changes: seq<Change>)
    requires EndsPlaying(HeardFromAll(changes))
    ensures SomebodyPlays(changes)
  {
    var n := |changes| - 1;
    if changes[n].Says().Some? {
      assert EndsPlaying(HeardFrom(changes, changes[n].sender));
    } else {
      LatestIsSomebodys(changes[..n]);
      var player :| EndsPlaying(HeardFrom(changes[..n], player));
      assert EndsPlaying(HeardFrom(changes, player));
    }
  }

  /** After any run the list is right about whether somebody plays, exactly unless somebody does and
      the latest status, of whatever player, was a stop. */
  lemma {:induction false} ListIsRightIff(iface: string, changes: seq<Change>)
    requires AllShallow(changes)
    ensures (ListsPlaying(FromInterface(iface, changes)) <==> SomebodyPlays(changes)) <==>
            (SomebodyPlays(changes) ==> EndsPlaying(HeardFromAll(changes)))
  {
    PlayersShareOneEntry(iface, changes);
    if EndsPlaying(HeardFromAll(changes)) {
      LatestIsSomebodys(changes);
    }
  }

  // ----- How many players the watcher can tell about

  predicate SentBy(changes: seq<Change>, players: set<string>) {
    forall i :: 0 <= i < |changes| ==> changes[i].sender in players
  }

  /** In all runs of these players the list says that something plays exactly if somebody does. */
  ghost predicate AlwaysRight(iface: string, players: set<string>) {
    forall changes :: AllShallow(changes) && SentBy(changes, players) ==>
      (ListsPlaying(FromInterface(iface, changes)) <==> SomebodyPlays(changes))
  }

  lemma {:induction false} OnlyPlayerIsHeard(changes: seq<Change>, only: string, player: string)
    requires SentBy(changes, {only})
    ensures HeardFrom(changes, player) == if player == only then HeardFromAll(changes) else []
  {
    if changes == [] {
    } else {
      OnlyPlayerIsHeard(changes[..|changes| - 1], only, player);
    }
  }

  function Status(player: string, status: string): Change {
    Change(player, [("PlaybackStatus", Text(status))], [])
  }

  /** The word in capitals, small letters or any mixture. */
  predicate AnyCase(status: string, word: string) {
    |status| == |word| && forall i :: 0 <= i < |word| ==> status[i] == word[i] || status[i] as int == word[i] as int + 32
  }

  /** The three words are understood in any spelling. */
  lemma StatusSays(player: string, status: string, word: string)
    requires word == "PLAYING" || word == "PAUSED" || word == "STOPPED"
    requires AnyCase(status, word)
    ensures Status(player, status).Shallow() && Status(player, status).Says() == Some(word == "PLAYING")
  {
    var changed := [("PlaybackStatus", Text(status))];
    assert changed[1..] == [] && LastText(changed) == Some(status);
    assert forall i :: 0 <= i < |word| ==> 'A' <= word[i] <= 'Z';
    CStringIs(status, |status|);
    assert Stored(status) == status;
    UpperOfAnyCase(status, word);
  }

  /** A player that starts is reported and listed, ... */
  lemma StartIsPrinted(iface: string, player: string, start: string)
    requires AnyCase(start, "PLAYING")
    ensures Run(FromInterface(iface, [Status(player, start)])) ==
            State([Entry(Stored(iface), 1)], [Notice(Stored(iface), true)])
  {
    StatusSays(player, start, "PLAYING");
    RunOneMore(iface, [], Status(player, start));
    assert [] + [Status(player, start)] == [Status(player, start)];
    StartThenStop(Stored(iface));
  }

  /** ... and when it pauses or stops, it is reported and dropped. */
  lemma StopIsPrinted(iface: string, player: string, start: string, stop: string, word: string)
    requires AnyCase(start, "PLAYING") && AnyCase(stop, word) && (word == "PAUSED" || word == "STOPPED")
    ensures Run(FromInterface(iface, [Status(player, start)] + [Status(player, stop)])) ==
            State([], [Notice(Stored(iface), true), Notice(Stored(iface), false)])
  {
    StartIsPrinted(iface, player, start);
    StatusSays(player, stop, word);
    RunOneMore(iface, [Status(player, start)], Status(player, stop));
    StartThenStop(Stored(iface));
  }

  lemma StartThenStop(name: string)
    requires |name| <= 254
    ensures Start(EMPTY, name) == State([Entry(name, 1)], [Notice(name, true)])
    ensures Stop(Start(EMPTY, name), name) == State([], [Notice(name, true), Notice(name, false)])
  {
    assert Start(EMPTY, name).entries == [Entry(name, 1)];
    assert Stop(Start(EMPTY, name), name).entries == [];
  }

  lemma RunOneMore(iface: string, changes: seq<Change>, c: Change)
    requires c.Shallow()
    ensures Run(FromInterface(iface, changes + [c])) ==
            match c.Says()
            case None => Run(FromInterface(iface, changes))
            case Some(play) =>
              if play then Start(Run(FromInterface(iface, changes)), Stored(iface))
              else Stop(Run(FromInterface(iface, changes)), Stored(iface))
  {
    var before, m := FromInterface(iface, changes), c.AsMessage(iface);
    assert (changes + [c])[..|changes|] == changes;
    assert (before + [m])[..|before|] == before;
    PropertiesChangedParsed(iface, c.changed, c.invalidated);
    HandlersByMeaning(Run(before), Parsed(m));
  }

  /** Two players start; the first one pauses. */
  lemma SecondPlayerIsForgotten(iface: string, first: string, second: string) returns (changes: seq<Change>)
    requires first != second
    ensures AllShallow(changes) && SentBy(changes, {first, second})
    ensures SomebodyPlays(changes) && !ListsPlaying(FromInterface(iface, changes))
  {
    StatusSays(first, "Paused", "PAUSED");
    var both := BothStart(first, second);
    var stop := Status(first, "Paused");
    OnePlayersStopEndsAll(iface, both, stop);
    changes := both + [stop];
    assert EndsPlaying(HeardFrom(changes, second));
  }

  lemma BothStart(first: string, second: string) returns (both: seq<Change>)
    ensures AllShallow(both) && SentBy(both, {first, second}) && EndsPlaying(HeardFrom(both, second))
  {
    StatusSays(first, "Playing", "PLAYING");
    StatusSays(second, "Playing", "PLAYING");
    LastHeard([Status(first, "Playing")], Status(second, "Playing"));
    both := [Status(first, "Playing")] + [Status(second, "Playing")];
  }

  lemma LastHeard(changes: seq<Change>, last: Change)
    requires last.Says() == Some(true)
    ensures EndsPlaying(HeardFrom(changes + [last], last.sender))
  {
    assert (changes + [last])[..|changes|] == changes;
  }

  /** Among the players on one interface the list can be relied on in all runs exactly if there is at
      most one. */
  lemma AlwaysRightIff(iface: string, players: set<string>)
    ensures AlwaysRight(iface, players) <==> |players| <= 1
  {
    if |players| <= 1 {
      forall changes | AllShallow(changes) && SentBy(changes, players)
        ensures ListsPlaying(FromInterface(iface, changes)) <==> SomebodyPlays(changes)
      {
        PlayersShareOneEntry(iface, changes);
        var only := OnlyOne(players, changes);
        forall player
          ensures HeardFrom(changes, player) == if player == only then HeardFromAll(changes) else []
        {
          OnlyPlayerIsHeard(changes, only, player);
        }
        assert EndsPlaying(HeardFrom(changes, only)) == EndsPlaying(HeardFromAll(changes));
      }
    } else {
      var first, second := TwoOf(players);
      var changes := SecondPlayerIsForgotten(iface, first, second);
      assert SentBy(changes, players);
    }
  }

  lemma OnlyOne(players: set<string>, changes: seq<Change>) returns (only: string)
    requires |players| <= 1 && SentBy(changes, players)
    ensures SentBy(changes, {only})
  {
    if players == {} {
      only := "";
    } else {
      only :| only in players;
      assert |players - {only}| == 0;
    }
  }

  lemma TwoOf(players: set<string>) returns (first: string, second: string)
    requires |players| >= 2
    ensures first in players && second in players && first != second
  {
    first :| first in players;
    assert |players - {first}| == |players| - 1;
    second :| second in players - {first};
  }
}
