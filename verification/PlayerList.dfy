/** dbus/framework_debus.c: the watcher's players, kept in an intrusive doubly linked list of heap
    nodes in the manner of sys/queue.h. */
module PlayerList {
  import opened MachineIntegers
  import opened Signals

  /** What the list says about one player: its name as stored, and whether it is playing. */
  datatype Entry = Entry(name: string, state: uint8)

  class Player {
    var name: string
    var state: uint8
    var next: Player?
    var prev: Player?       // null: the list head points here

    constructor (name: string)
      ensures this.name == name && state == 0 && next == null && prev == null
    {
      this.name, state, next, prev := name, 0, null, null;
    }
  }

  /** Names compare equal as `strncmp` over the first 254 characters has it. */
  predicate SameName(a: string, b: string) {
    Truncated(a) == Truncated(b)
  }

  /** The first entry under a name, or the number of entries if there is none. */
  function Find(entries: seq<Entry>, name: string): (i: nat)
    ensures i <= |entries|
    ensures i < |entries| ==> SameName(entries[i].name, name)
    ensures forall k :: 0 <= k < i ==> !SameName(entries[k].name, name)
  {
    if entries == [] || SameName(entries[0].name, name) then 0 else 1 + Find(entries[1..], name)
  }

  /** The list after looking a name up, which adds it in front if it is missing. */
  function Found(entries: seq<Entry>, name: string): seq<Entry> {
    if Find(entries, name) < |entries| then entries else [Entry(Truncated(name), 0)] + entries
  }

  /** Where the looked-up entry is in `Found`. */
  function FoundAt(entries: seq<Entry>, name: string): (i: nat)
    ensures i < |Found(entries, name)|
  {
    if Find(entries, name) < |entries| then Find(entries, name) else 0
  }

  lemma FindIs(entries: seq<Entry>, name: string, i: nat)
    requires i <= |entries|
    requires i < |entries| ==> SameName(entries[i].name, name)
    requires forall k :: 0 <= k < i ==> !SameName(entries[k].name, name)
    ensures Find(entries, name) == i
  {
  }

  ghost function At(nodes: seq<Player>, i: int): Player? {
    if 0 <= i < |nodes| then nodes[i] else null
  }

  ghost predicate Linked(nodes: seq<Player>)
    reads nodes
  {
    && (forall i, j :: 0 <= i < j < |nodes| ==> nodes[i] != nodes[j])
    && (forall i {:trigger nodes[i].next} :: 0 <= i < |nodes| ==> nodes[i].next == At(nodes, i + 1))
    && (forall i {:trigger nodes[i].prev} :: 0 <= i < |nodes| ==> nodes[i].prev == At(nodes, i - 1))
  }

  ghost function Without(nodes: seq<Player>, k: nat): seq<Player>
    requires k < |nodes|
  {
    nodes[..k] + nodes[k + 1..]
  }

  /** Links that skip node k are the links of the list without it. */
  lemma WithoutLinked(nodes: seq<Player>, k: nat)
    requires k < |nodes| && forall i, j :: 0 <= i < j < |nodes| ==> nodes[i] != nodes[j]
    requires forall i {:trigger nodes[i].next} :: 0 <= i < |nodes| && i != k ==>
               nodes[i].next == At(nodes, if i + 1 == k then k + 1 else i + 1)
    requires forall i {:trigger nodes[i].prev} :: 0 <= i < |nodes| && i != k ==>
               nodes[i].prev == At(nodes, if i == k + 1 then k - 1 else i - 1)
    ensures Linked(Without(nodes, k))
  {
  }

  lemma WithoutAsSet(nodes: seq<Player>, k: nat)
    requires k < |nodes| && forall i, j :: 0 <= i < j < |nodes| ==> nodes[i] != nodes[j]
    ensures (set p | p in Without(nodes, k)) + {nodes[k]} == (set p | p in nodes)
    ensures nodes[k] !in Without(nodes, k) && forall p <- Without(nodes, k) :: p in nodes
  {
  }

  ghost function EntriesOf(nodes: seq<Player>): (entries: seq<Entry>)
    reads nodes
    ensures |entries| == |nodes|
    ensures forall i :: 0 <= i < |nodes| ==> entries[i] == Entry(nodes[i].name, nodes[i].state)
  {
    seq(|nodes|, i requires 0 <= i < |nodes| reads nodes => Entry(nodes[i].name, nodes[i].state))
  }

  lemma InFront(before: seq<Entry>, after: seq<Entry>, e: Entry)
    requires |after| == |before| + 1 && after[0] == e
    requires forall i :: 0 <= i < |before| ==> after[i + 1] == before[i]
    ensures after == [e] + before
  {
  }

  lemma OneLess(before: seq<Entry>, after: seq<Entry>, k: nat)
    requires k < |before| && |after| == |before| - 1
    requires forall i :: 0 <= i < |after| ==> after[i] == before[if i < k then i else i + 1]
    ensures after == before[..k] + before[k + 1..]
  {
  }

  lemma ChangedThenDropped(entries: seq<Entry>, k: nat, e: Entry)
    requires k < |entries|
    ensures entries[k := e][..k] + entries[k := e][k + 1..] == entries[..k] + entries[k + 1..]
  {
  }

  class List {
    var first: Player?
    ghost var nodes: seq<Player>        // the players in list order
    ghost var freed: set<Player>        // given back to the allocator
    ghost var made: set<Player>         // ever allocated by this list

    /** Forward and back links describe the same sequence, and every node ever made is either in it
        or freed. */
    ghost predicate Valid()
      reads this, nodes
    {
      && Linked(nodes)
      && first == At(nodes, 0)
      && (set p | p in nodes) + freed == made
      && (forall i :: 0 <= i < |nodes| ==> nodes[i] !in freed)
    }

    ghost function Entries(): (entries: seq<Entry>)
      reads this, nodes
      ensures |entries| == |nodes|
      ensures forall i :: 0 <= i < |nodes| ==> entries[i] == Entry(nodes[i].name, nodes[i].state)
    {
      EntriesOf(nodes)
    }

    constructor ()
      ensures Valid() && nodes == [] && freed == {} && made == {}
    {
      first, nodes, freed, made := null, [], {}, {};
    }

    /** LIST_INSERT_HEAD. */
    method LinkHead(player: Player)
      requires Linked(nodes) && first == At(nodes, 0) && player !in nodes
      modifies this`first, this`nodes, nodes`prev, player`next, player`prev
      ensures Linked(nodes) && first == At(nodes, 0) && nodes == [player] + old(nodes)
    {
      assert first != null ==> first == nodes[0] && first in nodes;
      player.next := first;
      if first != null {
        first.prev := player;
      }
      first := player;
      player.prev := null;
      nodes := [player] + nodes;
    }

    method LinkEntry(player: Player)
      requires Linked(nodes) && first == At(nodes, 0) && player !in nodes
      modifies this`first, this`nodes, nodes`prev, player`next, player`prev
      ensures Linked(nodes) && first == At(nodes, 0) && nodes == [player] + old(nodes)
      ensures Entries() == [Entry(player.name, player.state)] + old(Entries())
    {
      ghost var was, before := nodes, Entries();
      LinkHead(player);
      forall i | 0 <= i < |was|
        ensures Entries()[i + 1] == before[i]
      {
        assert nodes[i + 1] == was[i];
      }
      InFront(before, Entries(), Entry(player.name, player.state));
    }

    /** A fresh player goes to the front. */
    method InsertHead(player: Player)
      requires Valid() && player !in made
      modifies this, nodes`prev, player`next, player`prev
      ensures Valid() && nodes == [player] + old(nodes)
      ensures freed == old(freed) && made == old(made) + {player}
      ensures Entries() == [Entry(player.name, player.state)] + old(Entries())
    {
      assert player !in (set p | p in nodes);
      LinkEntry(player);
      made := made + {player};
    }

    /** LIST_REMOVE: the neighbours are linked to each other. */
    method Unlink(player: Player, ghost k: nat)
      requires Linked(nodes) && first == At(nodes, 0) && k < |nodes| && nodes[k] == player
      modifies this`first, this`nodes, nodes`next, nodes`prev
      ensures Linked(nodes) && first == At(nodes, 0) && nodes == Without(old(nodes), k)
    {
      ghost var was := nodes;
      assert player.next == At(was, k + 1) && player.prev == At(was, k - 1);
      assert player.next != null ==> player.next in nodes;
      assert player.prev != null ==> player.prev in nodes;
      if player.next != null {
        player.next.prev := player.prev;
      }
      if player.prev == null {
        first := player.next;
      } else {
        player.prev.next := player.next;
      }
      assert forall i {:trigger was[i].next} :: 0 <= i < |was| && i != k ==>
               was[i].next == At(was, if i + 1 == k then k + 1 else i + 1);
      assert forall i {:trigger was[i].prev} :: 0 <= i < |was| && i != k ==>
               was[i].prev == At(was, if i == k + 1 then k - 1 else i - 1);
      nodes := Without(was, k);
      WithoutLinked(was, k);
    }

    method UnlinkEntry(player: Player, ghost k: nat)
      requires Linked(nodes) && first == At(nodes, 0) && k < |nodes| && nodes[k] == player
      modifies this`first, this`nodes, nodes`next, nodes`prev
      ensures Linked(nodes) && first == At(nodes, 0) && nodes == Without(old(nodes), k)
      ensures Entries() == old(Entries()[..k] + Entries()[k + 1..])
    {
      ghost var was, before := nodes, Entries();
      Unlink(player, k);
      forall i | 0 <= i < |nodes|
        ensures Entries()[i] == before[if i < k then i else i + 1]
      {
        assert nodes[i] == was[if i < k then i else i + 1];
      }
      OneLess(before, Entries(), k);
    }

    /** LIST_REMOVE followed by free. */
    method RemoveAndFree(player: Player, ghost k: nat)
      requires Valid() && k < |nodes| && nodes[k] == player
      modifies this, nodes
      ensures Valid() && nodes == Without(old(nodes), k)
      ensures player !in old(freed) && freed == old(freed) + {player} && made == old(made)
      ensures Entries() == old(Entries()[..k] + Entries()[k + 1..])
      ensures forall p <- nodes :: p in old(nodes)
    {
      WithoutAsSet(nodes, k);
      UnlinkEntry(player, k);
      freed := freed + {player};
    }

    /** `signal_stop` on a player that is playing, but for the printed line. */
    method StopAndRemove(player: Player, ghost k: nat)
      requires Valid() && k < |nodes| && nodes[k] == player
      modifies this, nodes
      ensures Valid() && freed == old(freed) + {player} && made == old(made)
      ensures Entries() == old(Entries()[..k] + Entries()[k + 1..])
      ensures forall p <- nodes :: p in old(nodes)
    {
      ChangedThenDropped(Entries(), k, Entries()[k].(state := 0));
      WithoutAsSet(nodes, k);
      SetState(player, 0, k);
      RemoveAndFree(player, k);
    }

    method SetState(player: Player, state: uint8, ghost k: nat)
      requires Valid() && k < |nodes| && nodes[k] == player
      modifies player`state
      ensures Valid() && player.state == state
      ensures Entries() == old(Entries())[k := old(Entries())[k].(state := state)]
    {
      ghost var before := Entries();
      player.state := state;
      forall i | 0 <= i < |nodes|
        ensures Entries()[i] == if i == k then before[k].(state := state) else before[i]
      {
      }
      assert Entries() == before[k := before[k].(state := state)];
    }

    /** The scan of `find_player`. */
    method Search(name: string) returns (player: Player?, ghost k: nat)
      requires Valid()
      ensures player == At(nodes, Find(Entries(), name)) && k == Find(Entries(), name)
    {
      k := 0;
      player := first;
      while player != null
        invariant 0 <= k <= |nodes|
        invariant player == At(nodes, k)
        invariant forall i :: 0 <= i < k ==> !SameName(nodes[i].name, name)
        decreases |nodes| - k
      {
        if SameName(player.name, name) {
          break;
        }
        player := player.next;
        k := k + 1;
      }
      FindIs(Entries(), name, k);
    }

    method AddPlayer(name: string) returns (player: Player)
      requires Valid()
      modifies this, nodes
      ensures Valid() && fresh(player) && nodes == [player] + old(nodes)
      ensures freed == old(freed) && made == old(made) + {player}
      ensures Entries() == [Entry(Truncated(name), 0)] + old(Entries())
    {
      player := new Player(Truncated(name));
      InsertHead(player);
    }

    /** `find_player`: adds the player if there is none of that name. */
    method FindPlayer(name: string) returns (player: Player, ghost k: nat)
      requires Valid()
      modifies this, nodes
      ensures Valid() && k < |nodes| && nodes[k] == player
      ensures forall p <- nodes :: p in old(nodes) || fresh(p)
      ensures freed == old(freed) && made == old(made) + {player}
      ensures Entries() == Found(old(Entries()), name) && k == FoundAt(old(Entries()), name)
      ensures Entry(player.name, player.state) == Found(old(Entries()), name)[k]
    {
      var found: Player?;
      found, k := Search(name);
      if found != null {
        player := found;
      } else {
        player := AddPlayer(name);
        k := 0;
      }
    }

    /** `clear_players`: afterwards every player ever made has been freed, each of them once. */
    method Clear()
      requires Valid()
      modifies this, nodes
      ensures Valid() && nodes == [] && freed == made == old(made)
    {
      while first != null
        invariant Valid() && made == old(made)
        invariant forall i :: 0 <= i < |nodes| ==> nodes[i] in old(nodes)
        decreases |nodes|
      {
        RemoveAndFree(first, 0);
      }
    }
  }
}
