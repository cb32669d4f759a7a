/** The four entity placement passes, as pure functions that walk the
    stored room chain (head first) exactly as the source's loops do and
    thread the PRNG state through every draw, with what each pass
    guarantees about the tables it fills. */
module ArenaPlacement {
  import opened CInt
  import opened ArenaTypes
  import opened ArenaRand

  /** Spawn points sit this far above the room's floor. */
  const SPAWN_HEIGHT: int := 24
  const PLAYER_JITTER: int := 64

  datatype Role = StartRole | ExitRole

  predicate HasRole(room: Room, role: Role) {
    match role
    case StartRole => room.isStartRoom
    case ExitRole => room.isExitRoom
  }

  /** The first room at or after chain index `k` that has the role: the
      search the start-room and exit-room passes perform. */
  function FindRoom(chain: seq<Room>, role: Role, k: nat): (r: Option<nat>)
    ensures r.Some? ==> k <= r.value < |chain| && HasRole(chain[r.value], role)
    ensures r.Some? ==> forall j :: k <= j < r.value ==> !HasRole(chain[j], role)
    ensures r.None? ==> forall j :: k <= j < |chain| ==> !HasRole(chain[j], role)
    decreases |chain| - k
  {
    if k >= |chain| then None
    else if HasRole(chain[k], role) then Some(k)
    else FindRoom(chain, role, k + 1)
  }

  /** Spawn points written so far and the PRNG state after them. */
  datatype Placed = Placed(spawns: seq<Vec3>, seed: uint32)

  /** `p` lies within `dx` of `center` on x and `dy` on y, at spawn height. */
  predicate Near(p: Vec3, center: Vec3, dx: int, dy: int) {
    && -dx <= p.x - center.x <= dx
    && -dy <= p.y - center.y <= dy
    && p.z == center.z + SPAWN_HEIGHT
  }

  /** `p` lies within a `div`-th of the room's width and depth of its origin. */
  predicate NearRoom(p: Vec3, room: Room, div: int)
    requires div > 0
  {
    Near(p, room.origin, CDiv(room.width, div), CDiv(room.depth, div))
  }

  predicate SizesNonNegative(chain: seq<Room>) {
    forall j :: 0 <= j < |chain| ==> chain[j].width >= 0 && chain[j].depth >= 0
  }

  /** A spawn point and the PRNG state after drawing it. */
  datatype Point = Point(p: Vec3, seed: uint32)

  /** A point jittered around the room's origin by up to a `div`-th of its
      width on x, then of its depth on y (one draw each unless that range
      is a single point), at spawn height. */
  function JitterInRoom(room: Room, div: int, s: uint32): (pt: Point)
    requires div > 0
    ensures room.width >= 0 && room.depth >= 0 ==> NearRoom(pt.p, room, div)
  {
    // The lower bounds are written -w/div and -d/div, which C truncates to
    // the negated upper bounds.
    CDivNegate(room.width, div);
    CDivNegate(room.depth, div);
    var hx := CDiv(room.width, div);
    var hy := CDiv(room.depth, div);
    var dx := RandRange(s, -hx, hx);
    var dy := RandRange(dx.seed, -hy, hy);
    Point(Vec3(room.origin.x + dx.value, room.origin.y + dy.value, room.origin.z + SPAWN_HEIGHT), dy.seed)
  }

  /** Splits off the entry appended after `acc`. */
  lemma Appended(acc: seq<Vec3>, p: Vec3, spawns: seq<Vec3>)
    requires |spawns| >= |acc| + 1 && spawns[..|acc| + 1] == acc + [p]
    ensures spawns[..|acc|] == acc && spawns[|acc|] == p
  {
    assert spawns[..|acc|] == spawns[..|acc| + 1][..|acc|];
    assert spawns[|acc|] == spawns[..|acc| + 1][|acc|];
  }

  // ---------------------------------------------------------------------
  // Player spawns

  /** The player loop from iteration `i`: two draws per spawn, each in
      [-64, 64], while `i` is below both the request and MAX_CLIENTS. */
  function PlayerLoop(center: Vec3, i: int, numPlayers: int, acc: seq<Vec3>, s: uint32): Placed
    decreases MAX_CLIENTS - i
  {
    if !(i < numPlayers && i < MAX_CLIENTS) then Placed(acc, s)
    else
      var dx := RandRange(s, -PLAYER_JITTER, PLAYER_JITTER);
      var dy := RandRange(dx.seed, -PLAYER_JITTER, PLAYER_JITTER);
      PlayerLoop(center, i + 1, numPlayers,
                 acc + [Vec3(center.x + dx.value, center.y + dy.value, center.z + SPAWN_HEIGHT)], dy.seed)
  }

  lemma {:induction false} PlayerLoopOk(center: Vec3, i: int, numPlayers: int, acc: seq<Vec3>, s: uint32)
    requires 0 <= i
    requires forall p :: p in acc ==> Near(p, center, PLAYER_JITTER, PLAYER_JITTER)
    ensures var r := PlayerLoop(center, i, numPlayers, acc, s);
      && |r.spawns| == |acc| + Max(0, Min(numPlayers, MAX_CLIENTS) - i)
      && forall p :: p in r.spawns ==> Near(p, center, PLAYER_JITTER, PLAYER_JITTER)
    decreases MAX_CLIENTS - i
  {
    if i < numPlayers && i < MAX_CLIENTS {
      var dx := RandRange(s, -PLAYER_JITTER, PLAYER_JITTER);
      var dy := RandRange(dx.seed, -PLAYER_JITTER, PLAYER_JITTER);
      var acc' := acc + [Vec3(center.x + dx.value, center.y + dy.value, center.z + SPAWN_HEIGHT)];
      PlayerLoopOk(center, i + 1, numPlayers, acc', dy.seed);
    }
  }

  /** The player pass: nothing at all (no draw, no write) when the chain
      has no start room, otherwise the spawns around the first start room. */
  function PlayerSpawns(chain: seq<Room>, numPlayers: int, s: uint32): Option<Placed> {
    match FindRoom(chain, StartRole, 0)
    case None => None
    case Some(j) => Some(PlayerLoop(chain[j].origin, 0, numPlayers, [], s))
  }

  /** The player pass places min(numPlayers, MAX_CLIENTS) spawns (none for
      a non-positive request), each within 64 of the start room's origin
      on x and y and 24 above it, and places nothing without a start room. */
  lemma PlayerSpawnsInStartRoom(chain: seq<Room>, numPlayers: int, s: uint32)
    ensures var r := PlayerSpawns(chain, numPlayers, s);
      && (r.None? <==> forall j :: 0 <= j < |chain| ==> !chain[j].isStartRoom)
      && (r.Some? ==>
            var start := chain[FindRoom(chain, StartRole, 0).value];
            && start.isStartRoom
            && |r.value.spawns| == Max(0, Min(numPlayers, MAX_CLIENTS))
            && forall p :: p in r.value.spawns ==> Near(p, start.origin, PLAYER_JITTER, PLAYER_JITTER))
  {
    var f := FindRoom(chain, StartRole, 0);
    if f.Some? {
      PlayerLoopOk(chain[f.value].origin, 0, numPlayers, [], s);
    }
  }

  // ---------------------------------------------------------------------
  // Enemy spawns

  /** Enemy budget: 5 + 3 * depth + a draw in [0, depth], clamped to
      MAX_ARENA_ENTITIES. */
  function EnemyTarget(depth: int, s: uint32): (d: Draw)
    ensures d.value <= MAX_ARENA_ENTITIES
    ensures Min(5 + 3 * depth, MAX_ARENA_ENTITIES) <= d.value <= Min(5 + 3 * depth + Max(depth, 0), MAX_ARENA_ENTITIES)
  {
    var r := RandRange(s, 0, depth);
    Draw(Min(5 + depth * 3 + r.value, MAX_ARENA_ENTITIES), r.seed)
  }

  /** How many enemies a room may take: its floor area in units of
      256 x 256, at least one, and one for a room flagged as a boss room. */
  function EnemyQuota(room: Room): (q: int)
    ensures q >= 1
    ensures room.isBossRoom ==> q == 1
    ensures !room.isBossRoom && room.width >= 0 && room.depth >= 0 ==>
              q == Max(1, room.width * room.depth / (256 * 256))
  {
    var perArea := CDiv(room.width * room.depth, 256 * 256);
    var atLeastOne := if perArea < 1 then 1 else perArea;
    if room.isBossRoom then 1 else atLeastOne
  }

  /** The inner enemy loop for one room from iteration `i`. */
  function EnemyRoom(room: Room, i: int, quota: int, target: int, acc: seq<Vec3>, s: uint32): Placed
    decreases quota - i
  {
    if !(i < quota && |acc| < target) then Placed(acc, s)
    else
      var pt := JitterInRoom(room, 3, s);
      EnemyRoom(room, i + 1, quota, target, acc + [pt.p], pt.seed)
  }

  /** One room receives min(quota - i, target - placed) more enemies (none
      once the target is met), each within a third of its width and depth
      of its origin; earlier entries are kept. */
  lemma {:induction false} EnemyRoomOk(room: Room, i: int, quota: int, target: int, acc: seq<Vec3>, s: uint32)
    requires room.width >= 0 && room.depth >= 0
    ensures var r := EnemyRoom(room, i, quota, target, acc, s);
      && |r.spawns| == |acc| + Max(0, Min(quota - i, target - |acc|))
      && r.spawns[..|acc|] == acc
      && forall m :: |acc| <= m < |r.spawns| ==> NearRoom(r.spawns[m], room, 3)
    decreases quota - i
  {
    if i < quota && |acc| < target {
      var pt := JitterInRoom(room, 3, s);
      EnemyRoomOk(room, i + 1, quota, target, acc + [pt.p], pt.seed);
      var r := EnemyRoom(room, i + 1, quota, target, acc + [pt.p], pt.seed);
      Appended(acc, pt.p, r.spawns);
    }
  }

  /** The outer enemy loop from chain index `k`: skip start rooms, fill
      each other room up to its quota, stop once the target is met. */
  function EnemyChain(chain: seq<Room>, k: int, target: int, acc: seq<Vec3>, s: uint32): Placed
    decreases |chain| - k
  {
    if !(0 <= k < |chain| && |acc| < target) then Placed(acc, s)
    else if chain[k].isStartRoom then EnemyChain(chain, k + 1, target, acc, s)
    else
      var r := EnemyRoom(chain[k], 0, EnemyQuota(chain[k]), target, acc, s);
      EnemyChain(chain, k + 1, target, r.spawns, r.seed)
  }

  /** Total quota of the rooms from chain index `k` on, start rooms excluded. */
  function QuotaFrom(chain: seq<Room>, k: nat): (total: int)
    ensures total >= 0
    decreases |chain| - k
  {
    if k >= |chain| then 0
    else (if chain[k].isStartRoom then 0 else EnemyQuota(chain[k])) + QuotaFrom(chain, k + 1)
  }

  /** `p` was placed for some room of the chain other than a start room. */
  ghost predicate NearNonStartRoom(p: Vec3, chain: seq<Room>, div: int)
    requires div > 0
  {
    exists j :: 0 <= j < |chain| && !chain[j].isStartRoom && NearRoom(p, chain[j], div)
  }

  lemma {:induction false} EnemyChainOk(chain: seq<Room>, k: nat, target: int, acc: seq<Vec3>, s: uint32)
    requires SizesNonNegative(chain)
    requires forall p :: p in acc ==> NearNonStartRoom(p, chain, 3)
    ensures var r := EnemyChain(chain, k, target, acc, s);
      && |r.spawns| == (if |acc| >= target then |acc| else Min(target, |acc| + QuotaFrom(chain, k)))
      && forall p :: p in r.spawns ==> NearNonStartRoom(p, chain, 3)
    decreases |chain| - k
  {
    if k < |chain| && |acc| < target {
      if chain[k].isStartRoom {
        EnemyChainOk(chain, k + 1, target, acc, s);
      } else {
        var quota := EnemyQuota(chain[k]);
        var r := EnemyRoom(chain[k], 0, quota, target, acc, s);
        EnemyRoomOk(chain[k], 0, quota, target, acc, s);
        forall p | p in r.spawns ensures NearNonStartRoom(p, chain, 3) {
          var m :| 0 <= m < |r.spawns| && r.spawns[m] == p;
          if m < |acc| {
            assert p == acc[m];
          } else {
            assert NearRoom(p, chain[k], 3);
          }
        }
        EnemyChainOk(chain, k + 1, target, r.spawns, r.seed);
      }
    }
  }

  /** The enemy pass: draw the budget, then walk the chain. */
  function EnemySpawns(chain: seq<Room>, depth: int, s: uint32): Placed {
    var t := EnemyTarget(depth, s);
    EnemyChain(chain, 0, t.value, [], t.seed)
  }

  /** The enemy pass places exactly min(budget, total quota) enemies (none
      for a non-positive budget), so never more than MAX_ARENA_ENTITIES,
      and every one of them within a third of the width and depth of a
      room that is not a start room. */
  lemma EnemySpawnsOk(chain: seq<Room>, depth: int, s: uint32)
    requires SizesNonNegative(chain)
    ensures var t := EnemyTarget(depth, s);
      var r := EnemySpawns(chain, depth, s);
      && |r.spawns| == Max(0, Min(t.value, QuotaFrom(chain, 0)))
      && |r.spawns| <= MAX_ARENA_ENTITIES
      && forall p :: p in r.spawns ==> NearNonStartRoom(p, chain, 3)
  {
    var t := EnemyTarget(depth, s);
    EnemyChainOk(chain, 0, t.value, [], t.seed);
  }

  // ---------------------------------------------------------------------
  // Item spawns

  /** Item budget: 3 + depth + a draw in [0, 3], clamped to half of
      MAX_ARENA_ENTITIES. */
  function ItemTarget(depth: int, s: uint32): (d: Draw)
    ensures d.seed == NextSeed(s)
    ensures Min(3 + depth, MAX_ARENA_ENTITIES / 2) <= d.value <= Min(6 + depth, MAX_ARENA_ENTITIES / 2)
  {
    var r := RandRange(s, 0, 3);
    Draw(Min(3 + depth + r.value, MAX_ARENA_ENTITIES / 2), r.seed)
  }

  /** The item loop from chain index `k`: one item in each room that is
      not a start room, until the target is met. */
  function ItemChain(chain: seq<Room>, k: int, target: int, acc: seq<Vec3>, s: uint32): Placed
    decreases |chain| - k
  {
    if !(0 <= k < |chain| && |acc| < target) then Placed(acc, s)
    else if !chain[k].isStartRoom then
      var pt := JitterInRoom(chain[k], 4, s);
      ItemChain(chain, k + 1, target, acc + [pt.p], pt.seed)
    else ItemChain(chain, k + 1, target, acc, s)
  }

  /** The rooms of a chain that are not start rooms, in chain order. */
  function NonStartRooms(chain: seq<Room>): (rs: seq<Room>)
    ensures |rs| <= |chain|
    ensures forall r :: r in rs ==> !r.isStartRoom
  {
    if chain == [] then []
    else (if chain[0].isStartRoom then [] else [chain[0]]) + NonStartRooms(chain[1..])
  }

  lemma {:induction false} ItemChainOk(chain: seq<Room>, k: nat, target: int, acc: seq<Vec3>, s: uint32)
    requires k <= |chain|
    requires SizesNonNegative(chain)
    ensures var r := ItemChain(chain, k, target, acc, s);
      var rooms := NonStartRooms(chain[k..]);
      && |r.spawns| == |acc| + Max(0, Min(target - |acc|, |rooms|))
      && r.spawns[..|acc|] == acc
      && forall m :: 0 <= m < |r.spawns| - |acc| ==> NearRoom(r.spawns[|acc| + m], rooms[m], 4)
    decreases |chain| - k
  {
    if k < |chain| && |acc| < target {
      var room := chain[k];
      assert chain[k..][1..] == chain[k + 1..];
      assert chain[k..][0] == room;
      if !room.isStartRoom {
        var pt := JitterInRoom(room, 4, s);
        var p := pt.p;
        ItemChainOk(chain, k + 1, target, acc + [p], pt.seed);
        var r := ItemChain(chain, k + 1, target, acc + [p], pt.seed);
        var rest := NonStartRooms(chain[k + 1..]);
        assert NonStartRooms(chain[k..]) == [room] + rest;
        ItemPrepend(acc, p, room, rest, r.spawns);
      } else {
        assert NonStartRooms(chain[k..]) == NonStartRooms(chain[k + 1..]);
        ItemChainOk(chain, k + 1, target, acc, s);
      }
    }
  }

  /** Joins the item placed for one room to the items placed for the rooms after it. */
  lemma ItemPrepend(acc: seq<Vec3>, p: Vec3, room: Room, rest: seq<Room>, spawns: seq<Vec3>)
    requires |spawns| >= |acc| + 1 && spawns[..|acc| + 1] == acc + [p]
    requires NearRoom(p, room, 4)
    requires |spawns| - |acc| - 1 <= |rest|
    requires forall m :: 0 <= m < |spawns| - (|acc| + 1) ==> NearRoom(spawns[|acc| + 1 + m], rest[m], 4)
    ensures spawns[..|acc|] == acc
    ensures forall m :: 0 <= m < |spawns| - |acc| ==> NearRoom(spawns[|acc| + m], ([room] + rest)[m], 4)
  {
    Appended(acc, p, spawns);
    forall m | 0 < m < |spawns| - |acc|
      ensures NearRoom(spawns[|acc| + m], ([room] + rest)[m], 4)
    {
      assert spawns[|acc| + m] == spawns[|acc| + 1 + (m - 1)];
    }
  }

  /** The item pass: draw the budget, then walk the chain. */
  function ItemSpawns(chain: seq<Room>, depth: int, s: uint32): Placed {
    var t := ItemTarget(depth, s);
    ItemChain(chain, 0, t.value, [], t.seed)
  }

  /** The item pass places exactly min(budget, number of non-start rooms)
      items (none for a non-positive budget), never more than half of
      MAX_ARENA_ENTITIES; item m belongs to the m-th non-start room in
      chain order, so no room gets two, and lies within a quarter of that
      room's width and depth of its origin. */
  lemma ItemSpawnsOk(chain: seq<Room>, depth: int, s: uint32)
    requires SizesNonNegative(chain)
    ensures var t := ItemTarget(depth, s);
      var r := ItemSpawns(chain, depth, s);
      var rooms := NonStartRooms(chain);
      && |r.spawns| == Max(0, Min(t.value, |rooms|))
      && |r.spawns| <= MAX_ARENA_ENTITIES / 2
      && forall m :: 0 <= m < |r.spawns| ==> NearRoom(r.spawns[m], rooms[m], 4)
  {
    var t := ItemTarget(depth, s);
    ItemChainOk(chain, 0, t.value, [], t.seed);
    assert chain[0..] == chain;
  }

  // ---------------------------------------------------------------------
  // Exit portal

  /** The exit pass: the first exit room in list order, its origin raised
      to spawn height, or the portal left as it was when the chain has no
      exit room. */
  function ExitPortal(chain: seq<Room>, portal: Vec3): (p: Vec3)
    ensures (forall j :: 0 <= j < |chain| ==> !chain[j].isExitRoom) ==> p == portal
    ensures (exists j :: 0 <= j < |chain| && chain[j].isExitRoom) ==>
              exists j :: 0 <= j < |chain| && chain[j].isExitRoom && p == chain[j].origin.(z := chain[j].origin.z + SPAWN_HEIGHT)
    ensures forall j :: 0 <= j < |chain| && chain[j].isExitRoom && (forall i :: 0 <= i < j ==> !chain[i].isExitRoom) ==>
              p == chain[j].origin.(z := chain[j].origin.z + SPAWN_HEIGHT)
  {
    match FindRoom(chain, ExitRole, 0)
    case None => portal
    case Some(j) => Vec3(chain[j].origin.x, chain[j].origin.y, chain[j].origin.z + SPAWN_HEIGHT)
  }
}
