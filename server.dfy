/**
 * The authoritative game state of server.js as one object: the insertion-ordered
 * `clients` dictionary, the consumable, the round counter and the running flag,
 * with the connection, disconnect, start and move handlers as its methods.
 */
module Server {
  import opened Wrappers
  import opened Grid
  import opened Rules

  /** How handleConnection ended for one socket. */
  datatype Admission =
    | Disallowed  // identifier not on the allow-list: disconnected, nothing stored
    | Rejected    // entry stored, then the socket is disconnected with no listeners
    | Admitted    // entry stored and the socket's listeners registered

  /** How handleClientInput ended. */
  datatype MoveOutcome =
    | Moved          // no collision, the named client's body advanced
    | Collided       // a collision was found: the round stops and positions are reset
    | UnknownClient  // no collision, but the id names no entry (the handler throws)

  /** One of the non-head cells of `body` equals `head`: the innermost loops of checkCollision. */
  method HitsTail(body: seq<Cell>, head: Cell) returns (found: bool)
    ensures found == InTail(body, head)
  {
    var i := 1;
    while i < |body|
      invariant 1 <= i
      invariant forall j | 1 <= j < i && j < |body| :: body[j] != head
    {
      if body[i] == head {
        return true;
      }
      i := i + 1;
    }
    return false;
  }

  /**
   * The forEach of resetGameData over the entries in insertion order: with
   * exactly two entries, index 0 gets the client1 start and index 1 the client2
   * start; with any other count all get `[{0, 0}]` and "left".
   */
  method ResetEntries(ids: seq<Id>, before: map<Id, Client>, cfg: Config) returns (entries: map<Id, Client>)
    requires WellFormed(ids, before)
    ensures entries == ResetLayout(ids, before, cfg)
  {
    ghost var target := ResetLayout(ids, before, cfg);
    entries := before;
    var index := 0;
    while index < |ids|
      invariant 0 <= index <= |ids|
      invariant entries.Keys == before.Keys
      invariant forall p | 0 <= p < index :: entries[ids[p]] == target[ids[p]]
      invariant forall p | index <= p < |ids| :: entries[ids[p]] == before[ids[p]]
    {
      var clientID := ids[index];
      ResetLayoutAt(ids, before, cfg, index);
      var entry := entries[clientID];
      if |ids| == 2 {
        if index == 0 {
          entry := entry.(position := [cfg.client1Start], direction := cfg.client1StartDir);
        } else if index == 1 {
          entry := entry.(position := [cfg.client2Start], direction := cfg.client2StartDir);
        }
      } else {
        entry := entry.(position := [Cell(0, 0)], direction := "left");
      }
      assert entry == target[clientID];
      assert forall p | 0 <= p < |ids| && p != index :: ids[p] != clientID;
      entries := entries[clientID := entry];
      index := index + 1;
    }
    forall k | k in entries ensures entries[k] == target[k] {
      WellFormedIndex(ids, before, k);
    }
  }

  class World {
    const cfg: Config
    var keys: seq<Id>
    var clients: map<Id, Client>
    var admitted: set<Id>
    var consumable: Cell
    var round: nat
    var isRunning: bool

    /** `keys` orders `clients`; admitted sockets are entries, and at most two of them at a time. */
    ghost predicate Valid()
      reads this
    {
      WellFormed(keys, clients) && admitted <= clients.Keys && |admitted| <= 2
    }

    /** initHost: no clients, round 0, not running, a first consumable from the draws. */
    constructor (cfg: Config, rx: int, ry: int)
      ensures Valid() && this.cfg == cfg
      ensures keys == [] && clients == map[] && admitted == {}
      ensures consumable == SpawnConsumable(cfg, rx, ry) && round == 0 && !isRunning
    {
      this.cfg := cfg;
      keys, clients, admitted := [], map[], {};
      consumable := SpawnConsumable(cfg, rx, ry);
      round, isRunning := 0, false;
    }

    /**
     * handleConnection: an allowed identifier stores an entry with collision 0 at
     * the client1 start, or the client2 start when exactly one entry exists; when
     * that makes more than two entries the socket is disconnected and the entry stays.
     */
    method HandleConnection(id: Id, clientIdentifier: string) returns (outcome: Admission)
      requires Valid()
      modifies this`keys, this`clients, this`admitted
      ensures Valid()
      ensures clientIdentifier !in cfg.defaultIdentifier ==>
                outcome == Disallowed && keys == old(keys) && clients == old(clients) && admitted == old(admitted)
      ensures clientIdentifier in cfg.defaultIdentifier ==>
                && keys == (if id in old(clients) then old(keys) else old(keys) + [id])
                && clients == old(clients)[id := if |old(keys)| == 1
                                               then Client([cfg.client2Start], cfg.client2StartDir, 0)
                                               else Client([cfg.client1Start], cfg.client1StartDir, 0)]
                && outcome == (if |keys| > 2 then Rejected else Admitted)
                && admitted == (if |keys| > 2 then old(admitted) else old(admitted) + {id})
    {
      if clientIdentifier !in cfg.defaultIdentifier {
        return Disallowed;
      }
      var position := [cfg.client1Start];
      var direction := cfg.client1StartDir;
      if |keys| == 1 {
        position := [cfg.client2Start];
        direction := cfg.client2StartDir;
      }
      if id !in clients {
        keys := keys + [id];
      }
      clients := clients[id := Client(position, direction, 0)];
      assert WellFormed(keys, clients) by {
        assert forall i | 0 <= i < |old(keys)| :: keys[i] == old(keys)[i];
      }
      if |keys| > 2 {
        return Rejected;
      }
      admitted := admitted + {id};
      CoveredCardinality(admitted, keys);
      outcome := Admitted;
    }

    /**
     * The disconnect listener: registered only for admitted sockets, it deletes
     * that entry and stops the game. A rejected socket's disconnect does nothing.
     */
    method Disconnect(id: Id)
      requires Valid()
      modifies this`keys, this`clients, this`admitted, this`isRunning
      ensures Valid()
      ensures id in old(admitted) ==>
                && clients == old(clients) - {id} && keys == Without(old(keys), id)
                && admitted == old(admitted) - {id} && !isRunning
      ensures id !in old(admitted) ==>
                keys == old(keys) && clients == old(clients) && admitted == old(admitted) && isRunning == old(isRunning)
    {
      if id in admitted {
        DeleteWellFormed(keys, clients, id);
        keys := Without(keys, id);
        clients := clients - {id};
        admitted := admitted - {id};
        isRunning := false;
      }
    }

    /**
     * The startGame listener: with exactly two entries it sends the current
     * record to the caller, then sets the game running and counts one more round.
     */
    method StartGame() returns (sent: Option<map<Id, Record>>)
      requires Valid()
      modifies this`isRunning, this`round
      ensures Valid()
      ensures |keys| == 2 ==>
                sent == Some(old(GenerateSyncData())) && isRunning && round == old(round) + 1
      ensures |keys| != 2 ==>
                sent == None && isRunning == old(isRunning) && round == old(round)
    {
      sent := None;
      if |keys| == 2 {
        sent := Some(GenerateSyncData());
        isRunning := true;
        round := round + 1;
      }
    }

    /** The first entry in insertion order, other than `key`, whose non-head cells contain `head`. */
    method FindOwner(key: Id, head: Cell) returns (owner: Option<Id>)
      requires Valid()
      ensures owner == FirstOwner(keys, clients, key, head, 0)
    {
      var j := 0;
      while j < |keys|
        invariant 0 <= j <= |keys|
        invariant FirstOwner(keys, clients, key, head, j) == FirstOwner(keys, clients, key, head, 0)
      {
        var otherKey := keys[j];
        if otherKey != key {
          var found := HitsTail(clients[otherKey].position, head);
          if found {
            return Some(otherKey);
          }
        }
        j := j + 1;
      }
      return None;
    }

    /**
     * The loops of checkCollision: for each entry in insertion order, the wall
     * test, then the other bodies, then its own body; the first hit ends the search.
     */
    method DetectCollision() returns (verdict: Hit)
      requires Valid()
      ensures verdict == Scan(keys, clients, cfg, 0)
    {
      var i := 0;
      while i < |keys|
        invariant 0 <= i <= |keys|
        invariant Scan(keys, clients, cfg, i) == Scan(keys, clients, cfg, 0)
      {
        var key := keys[i];
        var thisClient := clients[key].position;
        var head := thisClient[0];
        if !InInterior(head, cfg) {
          return WallHit(key);
        }
        var otherKey := FindOwner(key, head);
        if otherKey.Some? {
          return BodyHit(key, otherKey.value);
        }
        var self := HitsTail(thisClient, head);
        if self {
          return SelfHit(key);
        }
        i := i + 1;
      }
      return NoHit;
    }

    /**
     * checkCollision: reports whether detection finds a collision and raises the
     * one counter the verdict charges, the wall-hitter's or the hit body's
     * owner's; a self-collision raises none, and nothing else changes.
     */
    method CheckCollision() returns (hit: bool)
      requires Valid()
      modifies this`clients
      ensures Valid()
      ensures hit == (Scan(keys, old(clients), cfg, 0) != NoHit)
      ensures clients == Charge(old(clients), Scan(keys, old(clients), cfg, 0))
    {
      var verdict := DetectCollision();
      ChargeWellFormed(keys, clients, verdict);
      clients := Charge(clients, verdict);
      hit := verdict != NoHit;
    }

    /**
     * resetGameData: every entry in turn gets its start layout, the configured
     * ones with exactly two entries, otherwise `[{0, 0}]` and "left".
     */
    method ResetGameData()
      requires Valid()
      modifies this`clients
      ensures Valid()
      ensures clients == ResetLayout(keys, old(clients), cfg)
    {
      clients := ResetEntries(keys, clients, cfg);
    }

    /**
     * handleClientInput: collision detection runs first, on the state before the
     * move. With no collision the client's head is stepped and put in front, the
     * last cell dropped unless the consumable was eaten, and only an eaten
     * consumable is respawned from the draws. On a collision the game stops and
     * positions are reset; counters and the round stay.
     */
    method HandleClientInput(clientID: Id, direction: string, rx: int, ry: int) returns (outcome: MoveOutcome)
      requires Valid()
      modifies this`clients, this`consumable, this`isRunning
      ensures Valid()
      ensures Scan(keys, old(clients), cfg, 0) != NoHit ==>
                && outcome == Collided && !isRunning && consumable == old(consumable)
                && clients == ResetLayout(keys, Charge(old(clients), Scan(keys, old(clients), cfg, 0)), cfg)
      ensures Scan(keys, old(clients), cfg, 0) == NoHit && clientID !in old(clients) ==>
                && outcome == UnknownClient && clients == old(clients)
                && consumable == old(consumable) && isRunning == old(isRunning)
      ensures Scan(keys, old(clients), cfg, 0) == NoHit && clientID in old(clients) ==>
                && outcome == Moved && isRunning == old(isRunning)
                && clients == old(clients)[clientID := old(clients)[clientID].(
                     position := Advance(old(clients)[clientID].position, direction, old(consumable)))]
                && consumable == if Step(old(clients)[clientID].position[0], direction) == old(consumable)
                                 then SpawnConsumable(cfg, rx, ry) else old(consumable)
    {
      var hit := CheckCollision();
      if !hit {
        assert clients == old(clients);
        if clientID !in clients {
          return UnknownClient;
        }
        var entry := clients[clientID];
        ghost var advanced := Advance(entry.position, direction, consumable);
        var head := Step(entry.position[0], direction);
        var position := [head] + entry.position;
        if head == consumable {
          consumable := SpawnConsumable(cfg, rx, ry);
        } else {
          position := position[..|position| - 1];
        }
        assert position == advanced;
        var moved := clients[clientID := entry.(position := position)];
        assert WellFormed(keys, moved);
        clients := moved;
        outcome := Moved;
      } else {
        isRunning := false;
        ResetGameData();
        outcome := Collided;
      }
    }

    /**
     * generateSyncData: one record per entry with that entry's body, direction
     * and counter, all sharing the current consumable and round.
     */
    function GenerateSyncData(): (r: map<Id, Record>)
      reads this
      ensures r.Keys == clients.Keys
      ensures forall k | k in r :: r[k].consumable == consumable && r[k].round == round
      ensures Restore(r) == clients
    {
      map k | k in clients :: Record(clients[k].position, clients[k].direction, clients[k].collision, consumable, round)
    }
  }

  /** The configuration the scenarios below run under, allowing `ident` only. */
  function ScenarioConfig(ident: string): Config {
    Config(10, 10, Cell(2, 2), "right", Cell(7, 7), "left", [ident])
  }

  /** Two allowed connections on a fresh world are both admitted, in order. */
  method AdmitTwoScenario(a: Id, b: Id, ident: string, rx: int, ry: int) returns (world: World)
    requires a != b
    ensures fresh(world) && world.Valid() && world.cfg == ScenarioConfig(ident)
    ensures world.keys == [a, b] && world.admitted == {a, b}
  {
    world := new World(ScenarioConfig(ident), rx, ry);
    var first := world.HandleConnection(a, ident);
    assert [] + [a] == [a];
    assert first == Admitted;
    var second := world.HandleConnection(b, ident);
    assert [a] + [b] == [a, b];
    assert second == Admitted;
  }

  /**
   * A caller's view of the admission quirk, from the contracts alone: after two
   * admitted connections a third allowed one is rejected but keeps its entry at
   * the client1 start, and its disconnect removes nothing.
   */
  method ThirdConnectionScenario(a: Id, b: Id, c: Id, ident: string, rx: int, ry: int) returns (world: World)
    requires a != b && b != c && a != c
    ensures world.Valid() && world.keys == [a, b, c] && world.admitted == {a, b}
    ensures c in world.clients && world.clients[c] == Client([Cell(2, 2)], "right", 0)
  {
    world := AdmitTwoScenario(a, b, ident, rx, ry);
    var third := world.HandleConnection(c, ident);
    assert [a, b] + [c] == [a, b, c];
    assert third == Rejected;
    world.Disconnect(c);
  }

  /**
   * Continuing from there: the game cannot start with three entries, but once
   * an admitted client leaves it starts with the rejected entry as second worm.
   */
  method LeaveThenStartScenario(world: World, a: Id, b: Id, c: Id)
    requires a != b && b != c && a != c
    requires world.Valid() && world.keys == [a, b, c] && a in world.admitted
    modifies world
    ensures world.Valid() && world.keys == [b, c]
    ensures world.isRunning && world.round == old(world.round) + 1
  {
    var sent := world.StartGame();
    assert sent == None;
    world.Disconnect(a);
    assert |world.keys| == 2 by {
      assert [a, b, c][1..] == [b, c] && [b, c][1..] == [c] && [c][1..] == [];
    }
    sent := world.StartGame();
    assert sent.Some?;
  }
}
