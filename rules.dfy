/**
 * The pure game rules behind server.js: the configuration, a client's game
 * data, consumable spawning, collision detection as a scan over the clients
 * in insertion order, the body after one input, the reset layout and the
 * state record clients receive.
 */
module Rules {
  import opened Wrappers
  import opened Grid
  import opened Functions

  /** A socket id, the key of the `clients` dictionary; the server only compares ids for equality. */
  type Id(==, !new)

  /** The values server.js reads from its configuration file. */
  datatype Config = Config(
    gridWidth: int,
    gridHeight: int,
    client1Start: Cell,
    client1StartDir: string,
    client2Start: Cell,
    client2StartDir: string,
    defaultIdentifier: seq<string>)

  /** One entry of `clients`: body head first, last direction, collision counter. */
  datatype Client = Client(position: seq<Cell>, direction: string, collision: nat)

  /** One entry of the state record sent to every client. */
  datatype Record = Record(position: seq<Cell>, direction: string, collision: nat, consumable: Cell, round: nat)

  /** What collision detection found, and for whom. */
  datatype Hit =
    | NoHit
    | WallHit(culprit: Id)
    | BodyHit(culprit: Id, owner: Id)
    | SelfHit(culprit: Id)

  predicate Distinct(s: seq<Id>) {
    forall i, j | 0 <= i < j < |s| :: s[i] != s[j]
  }

  /** `keys` lists every client exactly once, in insertion order, and no body is empty. */
  predicate WellFormed(keys: seq<Id>, clients: map<Id, Client>) {
    Distinct(keys)
    && (forall i | 0 <= i < |keys| :: keys[i] in clients)
    && (forall k | k in clients :: k in keys)
    && (forall k :: k in clients ==> |clients[k].position| > 0)
  }

  /** The playable cells: everything but the border rows and columns. */
  predicate InInterior(c: Cell, cfg: Config) {
    1 <= c.x <= cfg.gridWidth - 2 && 1 <= c.y <= cfg.gridHeight - 2
  }

  /** The values `Math.floor(Math.random() * (size - 2))` can take. */
  predicate InDrawRange(draw: int, size: int) {
    0 <= draw <= size - 3
  }

  /** spawnConsumable, with the two random draws as parameters. */
  function SpawnConsumable(cfg: Config, rx: int, ry: int): (r: Cell)
    ensures InDrawRange(rx, cfg.gridWidth) && InDrawRange(ry, cfg.gridHeight) ==> InInterior(r, cfg)
    ensures cfg.gridWidth >= 2 ==> 1 <= r.x <= cfg.gridWidth - 1
    ensures cfg.gridHeight >= 2 ==> 1 <= r.y <= cfg.gridHeight - 1
  {
    Cell(Clamp(rx + 1, 1, cfg.gridWidth - 1), Clamp(ry + 1, 1, cfg.gridHeight - 1))
  }

  /** For draws the random source can produce, the two clamps change nothing. */
  lemma SpawnClampsInert(cfg: Config, rx: int, ry: int)
    requires InDrawRange(rx, cfg.gridWidth) && InDrawRange(ry, cfg.gridHeight)
    ensures SpawnConsumable(cfg, rx, ry) == Cell(rx + 1, ry + 1)
  {
  }

  /** `c` equals a cell of `body` other than its head. */
  predicate InTail(body: seq<Cell>, c: Cell) {
    exists i | 1 <= i < |body| :: body[i] == c
  }

  /** The client at index `q` is not `key` and its non-head cells contain `head`. */
  predicate OwnsHitAt(keys: seq<Id>, clients: map<Id, Client>, key: Id, head: Cell, q: int)
    requires WellFormed(keys, clients) && 0 <= q < |keys|
  {
    keys[q] != key && InTail(clients[keys[q]].position, head)
  }

  /** The first client from index `j` on, other than `key`, whose body `head` runs into. */
  function FirstOwner(keys: seq<Id>, clients: map<Id, Client>, key: Id, head: Cell, j: nat): (r: Option<Id>)
    requires WellFormed(keys, clients) && j <= |keys|
    ensures r.Some? <==> exists q :: j <= q < |keys| && OwnsHitAt(keys, clients, key, head, q)
    ensures r.Some? ==>
              exists q :: j <= q < |keys| && keys[q] == r.value && OwnsHitAt(keys, clients, key, head, q)
                          && forall q' :: j <= q' < q ==> !OwnsHitAt(keys, clients, key, head, q')
    decreases |keys| - j
  {
    if j == |keys| then None
    else if OwnsHitAt(keys, clients, key, head, j) then Some(keys[j])
    else FirstOwner(keys, clients, key, head, j + 1)
  }

  /** The client at index `p` has collided: a wall, another body or its own body. */
  predicate CollidesAt(keys: seq<Id>, clients: map<Id, Client>, cfg: Config, p: int)
    requires WellFormed(keys, clients) && 0 <= p < |keys|
  {
    var key := keys[p];
    var head := clients[key].position[0];
    || !InInterior(head, cfg)
    || (exists q :: 0 <= q < |keys| && OwnsHitAt(keys, clients, key, head, q))
    || InTail(clients[key].position, head)
  }

  /**
   * checkCollision's verdict on the clients from index `i` on: per client,
   * the wall test, then the other bodies in insertion order, then its own body.
   */
  function Scan(keys: seq<Id>, clients: map<Id, Client>, cfg: Config, i: nat): (r: Hit)
    requires WellFormed(keys, clients) && i <= |keys|
    ensures !r.NoHit? ==> r.culprit in clients
    ensures r.BodyHit? ==> r.owner in clients
    decreases |keys| - i
  {
    if i == |keys| then NoHit
    else
      var key := keys[i];
      var head := clients[key].position[0];
      if !InInterior(head, cfg) then WallHit(key)
      else match FirstOwner(keys, clients, key, head, 0)
        case Some(owner) => BodyHit(key, owner)
        case None =>
          if InTail(clients[key].position, head) then SelfHit(key)
          else Scan(keys, clients, cfg, i + 1)
  }

  /** The verdict `h` names the client at index `p`, for the right reason and with the right owner. */
  predicate BlamedAt(keys: seq<Id>, clients: map<Id, Client>, cfg: Config, p: int, h: Hit)
    requires WellFormed(keys, clients) && 0 <= p < |keys|
  {
    var key := keys[p];
    var head := clients[key].position[0];
    match h
    case NoHit => false
    case WallHit(c) => c == key && !InInterior(head, cfg)
    case BodyHit(c, o) =>
      && c == key && InInterior(head, cfg)
      && exists q :: 0 <= q < |keys| && keys[q] == o && OwnsHitAt(keys, clients, key, head, q)
                     && forall q' :: 0 <= q' < q ==> !OwnsHitAt(keys, clients, key, head, q')
    case SelfHit(c) =>
      && c == key && InInterior(head, cfg)
      && (forall q :: 0 <= q < |keys| ==> !OwnsHitAt(keys, clients, key, head, q))
      && InTail(clients[key].position, head)
  }

  /**
   * Detection finds a collision exactly when some client from index `i` on has
   * collided, and then it blames the first such client in insertion order,
   * classified by the first test it fails.
   */
  lemma {:induction false} DetectionSpec(keys: seq<Id>, clients: map<Id, Client>, cfg: Config, i: nat)
    requires WellFormed(keys, clients) && i <= |keys|
    ensures Scan(keys, clients, cfg, i) == NoHit <==> forall p :: i <= p < |keys| ==> !CollidesAt(keys, clients, cfg, p)
    ensures Scan(keys, clients, cfg, i) != NoHit ==>
              exists p :: i <= p < |keys| && BlamedAt(keys, clients, cfg, p, Scan(keys, clients, cfg, i))
                          && forall q :: i <= q < p ==> !CollidesAt(keys, clients, cfg, q)
    decreases |keys| - i
  {
    if i < |keys| {
      DetectionSpec(keys, clients, cfg, i + 1);
      var key := keys[i];
      var head := clients[key].position[0];
      var h := Scan(keys, clients, cfg, i);
      if !InInterior(head, cfg) {
        assert CollidesAt(keys, clients, cfg, i);
        assert BlamedAt(keys, clients, cfg, i, h);
      } else if FirstOwner(keys, clients, key, head, 0).Some? {
        assert CollidesAt(keys, clients, cfg, i);
        assert BlamedAt(keys, clients, cfg, i, h);
      } else if InTail(clients[key].position, head) {
        assert CollidesAt(keys, clients, cfg, i);
        assert BlamedAt(keys, clients, cfg, i, h);
      } else {
        assert !CollidesAt(keys, clients, cfg, i);
        if h != NoHit {
          var p :| i + 1 <= p < |keys| && BlamedAt(keys, clients, cfg, p, h)
                   && forall q :: i + 1 <= q < p ==> !CollidesAt(keys, clients, cfg, q);
          assert forall q :: i <= q < p ==> !CollidesAt(keys, clients, cfg, q);
        }
      }
    }
  }

  /** Whose collision counter a verdict raises: the wall-hitter, or the owner of the body hit. */
  function Charged(h: Hit): Option<Id> {
    match h
    case WallHit(c) => Some(c)
    case BodyHit(_, o) => Some(o)
    case _ => None
  }

  /** The clients after the counter of the charged client, and no other, went up by one. */
  function Charge(clients: map<Id, Client>, h: Hit): (r: map<Id, Client>)
    requires Charged(h).Some? ==> Charged(h).value in clients
    ensures r.Keys == clients.Keys
    ensures forall k :: k in clients ==>
              && r[k].position == clients[k].position
              && r[k].direction == clients[k].direction
              && r[k].collision == clients[k].collision + (if Charged(h) == Some(k) then 1 else 0)
  {
    match Charged(h)
    case None => clients
    case Some(o) => clients[o := clients[o].(collision := clients[o].collision + 1)]
  }

  /** Raising a counter keeps the client list well formed. */
  lemma ChargeWellFormed(keys: seq<Id>, clients: map<Id, Client>, h: Hit)
    requires WellFormed(keys, clients) && (Charged(h).Some? ==> Charged(h).value in clients)
    ensures WellFormed(keys, Charge(clients, h))
  {
  }

  /**
   * The body after one collision-free input: the stepped head in front, and the
   * last cell dropped unless the head landed on the consumable.
   */
  function Advance(body: seq<Cell>, direction: string, consumable: Cell): (r: seq<Cell>)
    requires |body| > 0
    ensures |r| > 0 && r[0] == Step(body[0], direction)
    ensures |r| == |body| + (if r[0] == consumable then 1 else 0)
    ensures r[1..] <= body
  {
    var grown := [Step(body[0], direction)] + body;
    if grown[0] == consumable then grown else grown[..|grown| - 1]
  }

  /** A step into the wall is applied; the next detection, whoever's input triggers it, finds it. */
  lemma WallStepDetectedNext(keys: seq<Id>, clients: map<Id, Client>, cfg: Config, id: Id, body: seq<Cell>)
    requires WellFormed(keys, clients) && id in clients && |body| > 0 && !InInterior(body[0], cfg)
    ensures WellFormed(keys, clients[id := clients[id].(position := body)])
    ensures Scan(keys, clients[id := clients[id].(position := body)], cfg, 0) != NoHit
  {
    var after := clients[id := clients[id].(position := body)];
    assert id in keys;
    var p :| 0 <= p < |keys| && keys[p] == id;
    assert CollidesAt(keys, after, cfg, p);
    DetectionSpec(keys, after, cfg, 0);
  }

  /** One client's entry after resetGameData. */
  function ResetEntry(keys: seq<Id>, k: Id, c: Client, cfg: Config): Client {
    if |keys| == 2 then
      if k == keys[0] then c.(position := [cfg.client1Start], direction := cfg.client1StartDir)
      else if k == keys[1] then c.(position := [cfg.client2Start], direction := cfg.client2StartDir)
      else c
    else c.(position := [Cell(0, 0)], direction := "left")
  }

  /**
   * The layout resetGameData leaves: with exactly two clients the configured
   * start of each, otherwise `[{0, 0}]` and "left" for all; counters untouched.
   */
  function ResetLayout(keys: seq<Id>, clients: map<Id, Client>, cfg: Config): (r: map<Id, Client>)
    requires WellFormed(keys, clients)
    ensures WellFormed(keys, r)
    ensures forall k :: k in r ==> r[k].collision == clients[k].collision && |r[k].position| == 1
    ensures |keys| == 2 ==>
              && r[keys[0]] == Client([cfg.client1Start], cfg.client1StartDir, clients[keys[0]].collision)
              && r[keys[1]] == Client([cfg.client2Start], cfg.client2StartDir, clients[keys[1]].collision)
    ensures |keys| != 2 ==> forall k :: k in r ==> r[k].position == [Cell(0, 0)] && r[k].direction == "left"
  {
    map k | k in clients :: ResetEntry(keys, k, clients[k], cfg)
  }

  /** The entry ResetLayout gives the client at index `p`, by that index. */
  lemma ResetLayoutAt(keys: seq<Id>, clients: map<Id, Client>, cfg: Config, p: nat)
    requires WellFormed(keys, clients) && p < |keys|
    ensures ResetLayout(keys, clients, cfg)[keys[p]] ==
              var c := clients[keys[p]];
              if |keys| != 2 then c.(position := [Cell(0, 0)], direction := "left")
              else if p == 0 then c.(position := [cfg.client1Start], direction := cfg.client1StartDir)
              else c.(position := [cfg.client2Start], direction := cfg.client2StartDir)
  {
    if |keys| == 2 && p == 1 {
      assert keys[1] != keys[0];
    }
  }

  /**
   * While any client holds the default body `[{0, 0}]`, every detection finds a
   * collision, so no input ever moves a body in that state.
   */
  lemma DefaultBodyBlocksMoves(keys: seq<Id>, clients: map<Id, Client>, cfg: Config, id: Id)
    requires WellFormed(keys, clients) && id in clients && clients[id].position == [Cell(0, 0)]
    ensures Scan(keys, clients, cfg, 0) != NoHit
  {
    assert id in keys;
    var p :| 0 <= p < |keys| && keys[p] == id;
    assert CollidesAt(keys, clients, cfg, p);
    DetectionSpec(keys, clients, cfg, 0);
  }

  /** The client entries a receiver reads back out of a state record. */
  function Restore(state: map<Id, Record>): map<Id, Client> {
    map k | k in state :: Client(state[k].position, state[k].direction, state[k].collision)
  }

  /** `keys` with `id` deleted, the others kept in their order. */
  function Without(keys: seq<Id>, id: Id): (r: seq<Id>)
    ensures forall k :: k in r <==> k in keys && k != id
    ensures id !in keys ==> r == keys
  {
    if keys == [] then []
    else if keys[0] == id then Without(keys[1..], id)
    else [keys[0]] + Without(keys[1..], id)
  }

  /** In a list without repeats, deleting `id` cuts out its one position and keeps the rest in order. */
  lemma {:induction false} WithoutCutsOne(keys: seq<Id>, id: Id, p: nat)
    requires Distinct(keys) && p < |keys| && keys[p] == id
    ensures Without(keys, id) == keys[..p] + keys[p + 1..]
  {
    var tail := keys[1..];
    if p == 0 {
      assert id !in tail by {
        forall j | 0 <= j < |tail| ensures tail[j] != id {
          assert tail[j] == keys[j + 1];
        }
      }
    } else {
      assert Distinct(tail) by {
        forall i, j | 0 <= i < j < |tail| ensures tail[i] != tail[j] {
          assert tail[i] == keys[i + 1] && tail[j] == keys[j + 1];
        }
      }
      assert keys[0] != id by {
        assert keys[0] == keys[0] && keys[p] == id;
      }
      WithoutCutsOne(tail, id, p - 1);
      assert keys[..p] == [keys[0]] + tail[..p - 1];
      assert keys[p + 1..] == tail[p..];
    }
  }

  /** Deleting an id from a list without repeats leaves a list without repeats. */
  lemma WithoutDistinct(keys: seq<Id>, id: Id, p: nat)
    requires Distinct(keys) && p < |keys| && keys[p] == id
    ensures Distinct(Without(keys, id))
  {
    WithoutCutsOne(keys, id, p);
    var r := Without(keys, id);
    forall i, j | 0 <= i < j < |r| ensures r[i] != r[j] {
      var i' := if i < p then i else i + 1;
      var j' := if j < p then j else j + 1;
      assert r[i] == keys[i'] && r[j] == keys[j'];
    }
  }

  /** Every client has a position in `keys`. */
  lemma WellFormedIndex(keys: seq<Id>, clients: map<Id, Client>, k: Id)
    requires WellFormed(keys, clients) && k in clients
    ensures exists p :: 0 <= p < |keys| && keys[p] == k
  {
  }

  /** Deleting a client from both the map and the order keeps them well formed. */
  lemma DeleteWellFormed(keys: seq<Id>, clients: map<Id, Client>, id: Id)
    requires WellFormed(keys, clients) && id in clients
    ensures WellFormed(Without(keys, id), clients - {id})
  {
    WellFormedIndex(keys, clients, id);
    var p :| 0 <= p < |keys| && keys[p] == id;
    WithoutDistinct(keys, id, p);
    var r := Without(keys, id);
    forall i | 0 <= i < |r| ensures r[i] in clients - {id} {
      assert r[i] in r;
      var q :| 0 <= q < |keys| && keys[q] == r[i];
    }
  }

  /** A set covered by a sequence has no more elements than the sequence. */
  lemma {:induction false} CoveredCardinality(s: set<Id>, keys: seq<Id>)
    requires forall k :: k in s ==> k in keys
    ensures |s| <= |keys|
  {
    if keys != [] {
      CoveredCardinality(s - {keys[0]}, keys[1..]);
    } else {
      assert s == {};
    }
  }
}
