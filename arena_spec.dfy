/** The whole of G_GenerateArena as one pure function of (seed, depth,
    theme), and what every arena it produces satisfies; the theme tiers
    of the roguelike run and the difficulty score. */
module ArenaSpec {
  import opened CInt
  import opened ArenaTypes
  import opened ArenaRand
  import opened ArenaLayout
  import opened ArenaPlacement

  /** Player spawns requested by the generator. */
  const REQUESTED_PLAYERS: int := 8
  /** The constant world envelope stamped on every arena. */
  const WORLD_MINS: Vec3 := Vec3(-2048, -2048, -512)
  const WORLD_MAXS: Vec3 := Vec3(2048, 2048, 512)

  /** The observable contents of an arena. `rooms` is the stored chain,
      head first; the spawn tables hold their written entries only. */
  datatype ArenaValue = ArenaValue(
    seed: int,
    depth: int,
    theme: Theme,
    rooms: seq<Room>,
    numRooms: int,
    corridors: seq<Corridor>,
    playerSpawns: seq<Vec3>,
    enemySpawns: seq<Vec3>,
    itemSpawns: seq<Vec3>,
    exitPortal: Vec3,
    worldMins: Vec3,
    worldMaxs: Vec3)

  /** An arena and the PRNG state generation leaves behind. */
  datatype Generated = Generated(arena: ArenaValue, seed: uint32)

  /** The room count drawn right after reseeding with seed + depth. */
  function RoomCountFor(seed: int, depth: int): Draw {
    RoomCount(depth, ToUnsigned(seed + depth))
  }

  /** The rooms in generation order, and the state after the room loop. */
  function LayoutFor(seed: int, depth: int, theme: Theme): Rooms {
    var count := RoomCountFor(seed, depth);
    GenRooms(0, count.value, depth, theme, Origin, [], count.seed)
  }

  /** What the four placement passes leave behind. */
  datatype Population = Population(
    playerSpawns: seq<Vec3>,
    enemySpawns: seq<Vec3>,
    itemSpawns: seq<Vec3>,
    exitPortal: Vec3,
    seed: uint32)

  /** The placement passes over the stored chain, in the source's order:
      players, enemies, items, exit portal. The player pass draws nothing
      when the chain has no start room; the portal starts at the origin. */
  function Populate(chain: seq<Room>, depth: int, s: uint32): Population {
    var players := PlayerSpawns(chain, REQUESTED_PLAYERS, s);
    var afterPlayers := if players.Some? then players.value.seed else s;
    var enemies := EnemySpawns(chain, depth, afterPlayers);
    var items := ItemSpawns(chain, depth, enemies.seed);
    Population(if players.Some? then players.value.spawns else [],
               enemies.spawns, items.spawns, ExitPortal(chain, Origin), items.seed)
  }

  /** Generation: reseed, lay out the rooms, link them newest first, build
      the corridors, then populate. Nothing but the three arguments enters:
      the state before the call is overwritten by the reseed. */
  function Generate(seed: int, depth: int, theme: Theme): Generated {
    var layout := LayoutFor(seed, depth, theme);
    Assemble(seed, depth, theme, Reverse(layout.rooms), layout.seed)
  }

  /** Everything after the rooms are linked: corridors along the chain,
      then the placement passes starting from generator state `s`. */
  function Assemble(seed: int, depth: int, theme: Theme, chain: seq<Room>, s: uint32): Generated {
    var pop := Populate(chain, depth, s);
    Generated(
      ArenaValue(seed, depth, theme, chain, |chain|, Corridors(chain, theme),
                 pop.playerSpawns, pop.enemySpawns, pop.itemSpawns, pop.exitPortal,
                 WORLD_MINS, WORLD_MAXS),
      pop.seed)
  }

  // ---------------------------------------------------------------------
  // What every generated arena satisfies

  /** The facts about a room sequence in generation order that the
      placement passes rely on: every room stands on the floor plane z = 0,
      the first room is the only start room and stands at the origin, the last is the only exit room once there are
      two, and every size is positive. */
  predicate LayoutShape(gen: seq<Room>) {
    && (|gen| > 0 ==> gen[0].origin == Origin)
    && (forall j :: 0 <= j < |gen| ==> gen[j].origin.z == 0)
    && (forall j :: 0 <= j < |gen| ==> (gen[j].isStartRoom <==> j == 0))
    && (forall j :: 0 <= j < |gen| ==> (gen[j].isExitRoom <==> j == |gen| - 1 && |gen| >= 2))
    && (forall j :: 0 <= j < |gen| ==> gen[j].width > 0 && gen[j].depth > 0 && gen[j].height > 0)
  }

  /** The generated rooms: max(0, drawn count) of them, at most
      MAX_ARENA_ROOMS, between 3 + depth and 3 + 2 * depth for a positive
      depth, each fitting its position, in the shape above. */
  lemma LayoutOk(seed: int, depth: int, theme: Theme)
    ensures var count := RoomCountFor(seed, depth);
      var gen := LayoutFor(seed, depth, theme).rooms;
      && |gen| == Max(0, count.value) <= MAX_ARENA_ROOMS
      && (depth > 0 ==> Min(3 + depth, MAX_ARENA_ROOMS) <= |gen| <= Min(3 + 2 * depth, MAX_ARENA_ROOMS))
      && (depth <= 0 ==> |gen| == Max(0, 3 + depth))
      && RoomsOk(gen, |gen|, depth, theme)
      && LayoutShape(gen)
  {
    var count := RoomCountFor(seed, depth);
    GenRoomsOk(0, count.value, depth, theme, Origin, [], count.seed);
    var gen := LayoutFor(seed, depth, theme).rooms;
    RoomRoles(gen, depth, theme);
    forall j | 0 <= j < |gen|
      ensures gen[j].width > 0 && gen[j].depth > 0 && gen[j].height > 0
    {
      assert RoomOk(gen[j], j, |gen|, depth, theme);
    }
  }

  /** The shape part of LayoutOk alone. */
  lemma LayoutShaped(seed: int, depth: int, theme: Theme)
    ensures LayoutShape(LayoutFor(seed, depth, theme).rooms)
  {
    LayoutOk(seed, depth, theme);
  }

  /** The per-room part of LayoutOk alone. */
  lemma LayoutRoomsOk(seed: int, depth: int, theme: Theme)
    ensures var gen := LayoutFor(seed, depth, theme).rooms;
      RoomsOk(gen, |gen|, depth, theme) && |gen| <= MAX_ARENA_ROOMS
  {
    LayoutOk(seed, depth, theme);
  }

  /** The stored chain of a generated arena: as long as numRooms, its head
      is the last generated room, and node k is the room generated at
      position numRooms - 1 - k. */
  lemma ChainIsReversed(seed: int, depth: int, theme: Theme)
    ensures var a := Generate(seed, depth, theme).arena;
      var gen := LayoutFor(seed, depth, theme).rooms;
      && a.numRooms == |a.rooms| == |gen|
      && (|gen| > 0 ==> a.rooms[0] == gen[|gen| - 1])
      && forall k :: 0 <= k < |gen| ==> a.rooms[k] == gen[|gen| - 1 - k]
  {
    ReverseAll(LayoutFor(seed, depth, theme).rooms);
  }

  /** In generation order, exactly the first room is the start room and,
      with two or more rooms, exactly the last is the exit room; a boss
      room sits second to last exactly when depth is a multiple of 5 and
      there are three rooms or more; no room carries the boss flag. */
  lemma GeneratedRoles(seed: int, depth: int, theme: Theme)
    ensures var gen := LayoutFor(seed, depth, theme).rooms;
      && (forall j :: 0 <= j < |gen| ==> (gen[j].isStartRoom <==> j == 0))
      && (forall j :: 0 <= j < |gen| ==> (gen[j].isExitRoom <==> j == |gen| - 1 && |gen| >= 2))
      && (forall j :: 0 <= j < |gen| ==>
            (gen[j].roomType == BossRoom <==> j == |gen| - 2 && depth % 5 == 0 && |gen| >= 3))
      && (forall j :: 0 <= j < |gen| ==> !gen[j].isBossRoom)
  {
    LayoutOk(seed, depth, theme);
    RoomRoles(LayoutFor(seed, depth, theme).rooms, depth, theme);
  }

  /** The roles along a stored chain of n rooms: the start room is the
      tail and the exit room the head, each the only one of its kind, and
      that is where the searches of the placement passes find them. */
  ghost predicate ChainRolesOk(chain: seq<Room>) {
    var n := |chain|;
    && (n >= 1 ==> FindRoom(chain, StartRole, 0) == Some(n - 1))
    && (n == 0 ==> FindRoom(chain, StartRole, 0) == None)
    && (n >= 2 ==> FindRoom(chain, ExitRole, 0) == Some(0))
    && (n < 2 ==> FindRoom(chain, ExitRole, 0) == None)
    && (forall j, k :: 0 <= j < n && 0 <= k < n && chain[j].isStartRoom && chain[k].isStartRoom ==> j == k)
    && (forall j, k :: 0 <= j < n && 0 <= k < n && chain[j].isExitRoom && chain[k].isExitRoom ==> j == k)
  }

  /** Reversing a layout of that shape gives a chain with ChainRolesOk,
      whose tail is the first generated room and whose head is the last. */
  lemma ReversedRoles(gen: seq<Room>)
    requires LayoutShape(gen)
    ensures var chain := Reverse(gen);
      var n := |chain|;
      && ChainRolesOk(chain)
      && (n >= 1 ==> chain[n - 1] == gen[0] && chain[0] == gen[n - 1])
      && SizesNonNegative(chain)
  {
    var chain := Reverse(gen);
    var n := |chain|;
    ReverseAll(gen);
    assert forall k :: 0 <= k < n ==> (chain[k].isStartRoom <==> k == n - 1) by {
      forall k | 0 <= k < n ensures chain[k].isStartRoom <==> k == n - 1 {
        assert chain[k] == gen[n - 1 - k];
      }
    }
    assert forall k :: 0 <= k < n ==> (chain[k].isExitRoom <==> k == 0 && n >= 2) by {
      forall k | 0 <= k < n ensures chain[k].isExitRoom <==> k == 0 && n >= 2 {
        assert chain[k] == gen[n - 1 - k];
      }
    }
    assert SizesNonNegative(chain) by {
      forall j | 0 <= j < n ensures chain[j].width >= 0 && chain[j].depth >= 0 {
        assert chain[j] == gen[n - 1 - j];
      }
    }
    var fs := FindRoom(chain, StartRole, 0);
    if n >= 1 {
      assert HasRole(chain[n - 1], StartRole);
    }
    var fe := FindRoom(chain, ExitRole, 0);
    if n >= 2 {
      assert HasRole(chain[0], ExitRole);
    }
  }

  /** The stored chain of a generated arena has exactly one start room if
      it is not empty and exactly one exit room if it has two rooms or
      more; the placement passes find the start room at the tail and the
      exit room at the head. */
  lemma ChainRoles(seed: int, depth: int, theme: Theme)
    ensures ChainRolesOk(Generate(seed, depth, theme).arena.rooms)
  {
    LayoutShaped(seed, depth, theme);
    ReversedRoles(LayoutFor(seed, depth, theme).rooms);
  }

  /** The corridors over the chain Reverse(gen) of a layout of n rooms:
      fewer than MAX_ARENA_CORRIDORS of them, corridor k joining chain
      nodes k and k + 1 only, from the origin of the room generated at
      n - 1 - k back along x, by the width of the room generated at
      n - 2 - k plus the gap, to that room's origin; every corridor is 128
      wide and carries the arena's theme. */
  ghost predicate CorridorsMatch(gen: seq<Room>, theme: Theme, cs: seq<Corridor>) {
    var chain := Reverse(gen);
    var n := |gen|;
    && |cs| == Max(n - 1, 0) < MAX_ARENA_CORRIDORS
    && forall k :: 0 <= k < |cs| ==>
         && cs[k].roomA == k && cs[k].roomB == k + 1
         && cs[k].start == chain[k].origin && cs[k].end == chain[k + 1].origin
         && cs[k].start == gen[n - 1 - k].origin && cs[k].end == gen[n - 2 - k].origin
         && cs[k].start.x == cs[k].end.x + gen[n - 2 - k].width + ROOM_GAP
         && cs[k].width == CORRIDOR_WIDTH && cs[k].theme == theme
  }

  /** The corridor walk over the reversed chain of a layout of at most
      MAX_ARENA_ROOMS rooms gives CorridorsMatch. */
  lemma CorridorsOk(gen: seq<Room>, depth: int, theme: Theme)
    requires RoomsOk(gen, |gen|, depth, theme) && |gen| <= MAX_ARENA_ROOMS
    ensures CorridorsMatch(gen, theme, Corridors(Reverse(gen), theme))
  {
    CorridorsJoinNeighbours(gen, theme);
    CorridorSpan(gen, |gen|, depth, theme);
  }

  /** The corridor table of a generated arena, as above. */
  lemma GeneratedCorridors(seed: int, depth: int, theme: Theme)
    ensures CorridorsMatch(LayoutFor(seed, depth, theme).rooms, theme, Generate(seed, depth, theme).arena.corridors)
  {
    LayoutRoomsOk(seed, depth, theme);
    CorridorsOk(LayoutFor(seed, depth, theme).rooms, depth, theme);
  }

  /** Populating the reversed chain of a layout of that shape: with any
      room exactly 8 player spawns within 64 of the world origin on x and
      y and 24 above it, none without rooms; at most MAX_ARENA_ENTITIES
      enemies, each within a third of the width and depth of a room that
      is not the start room; at most half that many items, item m within
      a quarter of the width and depth of the m-th non-start room of the
      chain; the exit portal 24 above the last generated room's origin
      when there are two rooms or more, at the origin otherwise. */
  lemma PopulateOk(gen: seq<Room>, depth: int, s: uint32)
    requires LayoutShape(gen)
    ensures var chain := Reverse(gen);
      var pop := Populate(chain, depth, s);
      var n := |gen|;
      && |pop.playerSpawns| == (if n >= 1 then REQUESTED_PLAYERS else 0) <= MAX_CLIENTS
      && (forall p :: p in pop.playerSpawns ==> Near(p, Origin, PLAYER_JITTER, PLAYER_JITTER))
      && |pop.enemySpawns| <= MAX_ARENA_ENTITIES
      && (forall p :: p in pop.enemySpawns ==> NearNonStartRoom(p, chain, 3))
      && |pop.itemSpawns| <= MAX_ARENA_ENTITIES / 2
      && |pop.itemSpawns| <= |NonStartRooms(chain)|
      && (forall m :: 0 <= m < |pop.itemSpawns| ==> NearRoom(pop.itemSpawns[m], NonStartRooms(chain)[m], 4))
      && pop.exitPortal == (if n >= 2 then gen[n - 1].origin.(z := SPAWN_HEIGHT) else Origin)
  {
    var chain := Reverse(gen);
    ReversedRoles(gen);
    PlayerSpawnsInStartRoom(chain, REQUESTED_PLAYERS, s);
    var players := PlayerSpawns(chain, REQUESTED_PLAYERS, s);
    var afterPlayers := if players.Some? then players.value.seed else s;
    EnemySpawnsOk(chain, depth, afterPlayers);
    ItemSpawnsOk(chain, depth, EnemySpawns(chain, depth, afterPlayers).seed);
  }

  /** The spawn tables of a generated arena, as above, over its stored chain. */
  lemma GeneratedSpawns(seed: int, depth: int, theme: Theme)
    ensures var a := Generate(seed, depth, theme).arena;
      var gen := LayoutFor(seed, depth, theme).rooms;
      var n := |gen|;
      && |a.playerSpawns| == (if n >= 1 then REQUESTED_PLAYERS else 0) <= MAX_CLIENTS
      && (forall p :: p in a.playerSpawns ==> Near(p, Origin, PLAYER_JITTER, PLAYER_JITTER))
      && |a.enemySpawns| <= MAX_ARENA_ENTITIES
      && (forall p :: p in a.enemySpawns ==> NearNonStartRoom(p, a.rooms, 3))
      && |a.itemSpawns| <= MAX_ARENA_ENTITIES / 2
      && |a.itemSpawns| <= |NonStartRooms(a.rooms)|
      && (forall m :: 0 <= m < |a.itemSpawns| ==> NearRoom(a.itemSpawns[m], NonStartRooms(a.rooms)[m], 4))
      && a.exitPortal == (if n >= 2 then gen[n - 1].origin.(z := SPAWN_HEIGHT) else Origin)
  {
    var layout := LayoutFor(seed, depth, theme);
    LayoutShaped(seed, depth, theme);
    PopulateOk(layout.rooms, depth, layout.seed);
  }

  // ---------------------------------------------------------------------
  // Roguelike run: its counters, theme tiers and the difficulty score

  /** The scalar fields of roguelikeRun_t. */
  datatype RunState = RunState(
    seed: int, currentDepth: int, maxDepth: int,
    score: int, kills: int, permadeath: bool, lives: int)

  /** A new run: depth 1, nothing scored, one life with permadeath and three
      without. */
  function NewRun(seed: int, permadeath: bool): RunState {
    RunState(seed, 1, 1, 0, 0, permadeath, if permadeath then 1 else 3)
  }

  /** One level deeper; the deepest level reached follows. */
  function Advanced(r: RunState): RunState {
    var d := r.currentDepth + 1;
    r.(currentDepth := d, maxDepth := if d > r.maxDepth then d else r.maxDepth)
  }

  /** The depth counters of a run in play: the current depth is at least 1
      and never beyond the deepest level reached. */
  predicate DepthsOk(r: RunState) {
    1 <= r.currentDepth <= r.maxDepth
  }

  /** A new run starts at depth 1, which is also the deepest reached, with
      no score or kills and 1 life under permadeath, 3 otherwise. */
  lemma NewRunOk(seed: int, permadeath: bool)
    ensures var r := NewRun(seed, permadeath);
      && DepthsOk(r) && r.currentDepth == r.maxDepth == 1
      && r.seed == seed && r.score == 0 && r.kills == 0 && r.permadeath == permadeath
      && r.lives == (if permadeath then 1 else 3) && r.lives >= 1
  {
  }

  /** Advancing keeps DepthsOk, goes one level deeper, raises the deepest
      level reached to it when it is new, and leaves the seed, score, kills,
      lives and mode alone. */
  lemma AdvancedOk(r: RunState)
    requires DepthsOk(r)
    ensures var r' := Advanced(r);
      && DepthsOk(r') && r'.currentDepth == r.currentDepth + 1
      && r'.maxDepth == Max(r.maxDepth, r'.currentDepth)
      && r'.seed == r.seed && r'.score == r.score && r'.kills == r.kills
      && r'.permadeath == r.permadeath && r'.lives == r.lives
  {
  }

  /** The theme of the arena at a given run depth: Tech, then Gothic from
      depth 3, Space from depth 6 and Hell from depth 10. */
  function ThemeForDepth(depth: int): (t: Theme)
    ensures t != RandomTheme
  {
    if depth >= 10 then Hell
    else if depth >= 6 then Space
    else if depth >= 3 then Gothic
    else Tech
  }

  /** Going deeper never returns to an earlier theme tier. */
  lemma ThemeTiersMonotone(d1: int, d2: int)
    requires d1 <= d2
    ensures ThemeForDepth(d1).Code() <= ThemeForDepth(d2).Code()
  {
  }

  /** The difficulty score of an arena. */
  function ArenaDifficulty(a: ArenaValue): int {
    a.depth * 100 + |a.enemySpawns| * 10 + a.numRooms
  }

  /** In a generated arena the depth term dominates the score: enemies and
      rooms add at most 10 * MAX_ARENA_ENTITIES + MAX_ARENA_ROOMS to
      100 * depth, and at least one point per room. */
  lemma GeneratedDifficultyBounds(seed: int, depth: int, theme: Theme)
    ensures var a := Generate(seed, depth, theme).arena;
      100 * depth + a.numRooms <= ArenaDifficulty(a) <= 100 * depth + 10 * MAX_ARENA_ENTITIES + MAX_ARENA_ROOMS
  {
    LayoutOk(seed, depth, theme);
    GeneratedSpawns(seed, depth, theme);
  }
}
