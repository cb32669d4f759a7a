/** The generator as the source runs it: an arena object whose tables are
    fixed-size arrays filled in place, the module state (the PRNG word
    and the current run) as a generator object, and every generation step
    as a method proved equal to the pure model of ArenaLayout,
    ArenaPlacement and ArenaSpec. */
module ArenaGen {
  import opened CInt
  import opened ArenaTypes
  import opened ArenaRand
  import opened ArenaLayout
  import opened ArenaPlacement
  import opened ArenaSpec

  const NO_CORRIDOR: Corridor := Corridor(0, 0, Origin, Origin, 0, Tech)

  /** arena_t: the room chain (head first) and the fixed tables with their
      fill counts. */
  class Arena {
    const seed: int
    const depth: int
    const theme: Theme
    var rooms: seq<Room>
    var numRooms: int
    const corridors: array<Corridor>
    var numCorridors: int
    var worldMins: Vec3
    var worldMaxs: Vec3
    const playerSpawns: array<Vec3>
    var numPlayerSpawns: int
    const enemySpawns: array<Vec3>
    var numEnemySpawns: int
    const itemSpawns: array<Vec3>
    var numItemSpawns: int
    var exitPortal: Vec3

    /** The tables have their declared capacities, are distinct, and every
        count lies within its table. */
    ghost predicate Valid()
      reads this`numCorridors, this`numPlayerSpawns, this`numEnemySpawns, this`numItemSpawns
    {
      && corridors.Length == MAX_ARENA_CORRIDORS
      && playerSpawns.Length == MAX_CLIENTS
      && enemySpawns.Length == MAX_ARENA_ENTITIES
      && itemSpawns.Length == MAX_ARENA_ENTITIES
      && playerSpawns != enemySpawns && playerSpawns != itemSpawns && enemySpawns != itemSpawns
      && 0 <= numCorridors <= MAX_ARENA_CORRIDORS
      && 0 <= numPlayerSpawns <= MAX_CLIENTS
      && 0 <= numEnemySpawns <= MAX_ARENA_ENTITIES
      && 0 <= numItemSpawns <= MAX_ARENA_ENTITIES
    }

    /** The observable contents: the written prefix of every table. */
    ghost function Value(): ArenaValue
      reads this, corridors, playerSpawns, enemySpawns, itemSpawns
      requires Valid()
    {
      ArenaValue(seed, depth, theme, rooms, numRooms, corridors[..numCorridors],
                 playerSpawns[..numPlayerSpawns], enemySpawns[..numEnemySpawns],
                 itemSpawns[..numItemSpawns], exitPortal, worldMins, worldMaxs)
    }

    /** A zero-filled arena carrying its generation parameters. */
    constructor(seed: int, depth: int, theme: Theme)
      ensures Valid() && fresh(corridors) && fresh(playerSpawns) && fresh(enemySpawns) && fresh(itemSpawns)
      ensures this.seed == seed && this.depth == depth && this.theme == theme
      ensures Value() == ArenaValue(seed, depth, theme, [], 0, [], [], [], [], Origin, Origin, Origin)
    {
      this.seed := seed;
      this.depth := depth;
      this.theme := theme;
      rooms := [];
      numRooms := 0;
      corridors := new Corridor[MAX_ARENA_CORRIDORS](_ => NO_CORRIDOR);
      numCorridors := 0;
      worldMins := Origin;
      worldMaxs := Origin;
      playerSpawns := new Vec3[MAX_CLIENTS](_ => Origin);
      numPlayerSpawns := 0;
      enemySpawns := new Vec3[MAX_ARENA_ENTITIES](_ => Origin);
      numEnemySpawns := 0;
      itemSpawns := new Vec3[MAX_ARENA_ENTITIES](_ => Origin);
      numItemSpawns := 0;
      exitPortal := Origin;
    }
  }

  /** roguelikeRun_t. */
  class Run {
    const seed: int
    var currentDepth: int
    var maxDepth: int
    var score: int
    var kills: int
    const permadeath: bool
    var lives: int
    var currentArena: Arena?

    /** The scalar fields as a value. */
    ghost function State(): RunState
      reads this`currentDepth, this`maxDepth, this`score, this`kills, this`lives
    {
      RunState(seed, currentDepth, maxDepth, score, kills, permadeath, lives)
    }

    /** A fresh run at depth 1 with no arena yet. */
    constructor(seed: int, permadeath: bool)
      ensures State() == NewRun(seed, permadeath) && currentArena == null
    {
      this.seed := seed;
      currentDepth := 1;
      maxDepth := 1;
      score := 0;
      kills := 0;
      this.permadeath := permadeath;
      lives := if permadeath then 1 else 3;
      currentArena := null;
    }

    /** The depth step of G_AdvanceToNextArena. */
    method Descend()
      modifies this`currentDepth, this`maxDepth
      ensures State() == Advanced(old(State()))
    {
      currentDepth := currentDepth + 1;
      if currentDepth > maxDepth {
        maxDepth := currentDepth;
      }
    }
  }

  /** The module state of g_arena_gen.c: the PRNG word and the current run. */
  class Generator {
    var randSeed: uint32
    var currentRun: Run?

    /** The static initialisers: seed 0, no run. */
    constructor()
      ensures randSeed == 0 && currentRun == null
    {
      randSeed := 0;
      currentRun := null;
    }

    // -------------------------------------------------------------------
    // PRNG

    method Rand() returns (r: int)
      modifies this`randSeed
      ensures Draw(r, randSeed) == ArenaRand.Rand(old(randSeed))
    {
      randSeed := (randSeed * RAND_MULTIPLIER + RAND_INCREMENT) % TWO_TO_32;
      r := (randSeed / 65536) % 32768;
    }

    /** Reseeding converts the signed argument to the unsigned state word. */
    method SetSeed(seed: int)
      modifies this`randSeed
      ensures randSeed == ToUnsigned(seed)
    {
      randSeed := seed % TWO_TO_32;
    }

    method RandRange(lo: int, hi: int) returns (r: int)
      modifies this`randSeed
      ensures Draw(r, randSeed) == ArenaRand.RandRange(old(randSeed), lo, hi)
    {
      if hi <= lo {
        return lo;
      }
      var x := Rand();
      r := lo + x % (hi - lo + 1);
    }

    // -------------------------------------------------------------------
    // Generation

    /** The type chain of the room loop, drawing as PickType does. */
    method PickRoomType(i: int, n: int, depth: int) returns (roomType: RoomType)
      modifies this`randSeed
      ensures TypeDraw(roomType, randSeed) == PickType(i, n, depth, old(randSeed))
    {
      if i == 0 {
        roomType := StartRoom;
      } else if i == n - 1 {
        roomType := ExitRoom;
      } else if depth % 5 == 0 && i == n - 2 {
        roomType := BossRoom;
      } else {
        var r := RandRange(0, 100);
        if r < 40 { roomType := ArenaRoom; }
        else if r < 60 { roomType := CorridorRoom; }
        else if r < 75 { roomType := JunctionRoom; }
        else if r < 90 { roomType := MultilevelRoom; }
        else { roomType := HazardRoom; }
      }
    }

    /** The size draws of the room loop, drawing as RoomSize does. */
    method DrawRoomSize(roomType: RoomType, depth: int) returns (width: int, height: int, roomDepth: int)
      modifies this`randSeed
      ensures Sized(width, height, roomDepth, randSeed) == RoomSize(roomType, depth, old(randSeed))
    {
      var w := RandRange(0, 128);
      width := 256 + w + depth * 16;
      var h := RandRange(0, 64);
      height := 256 + h;
      var d := RandRange(0, 128);
      roomDepth := 256 + d + depth * 16;
      if roomType == CorridorRoom {
        var cw := RandRange(0, 256);
        width := 512 + cw;
        roomDepth := 128;
      } else if roomType == BossRoom {
        width := 512 + depth * 32;
        roomDepth := 512 + depth * 32;
        height := 384;
      }
    }

    /** One iteration of the room loop, drawing exactly as GenRoom does. */
    method GenerateRoom(i: int, n: int, depth: int, theme: Theme, cursor: Vec3) returns (room: Room, next: Vec3)
      modifies this`randSeed
      ensures RoomStep(room, next, randSeed) == GenRoom(i, n, depth, theme, cursor, old(randSeed))
    {
      var roomType := PickRoomType(i, n, depth);
      var width, height, roomDepth := DrawRoomSize(roomType, depth);
      room := CreateRoom(roomType, cursor, width, height, roomDepth).(theme := theme);
      next := cursor.(x := cursor.x + width + ROOM_GAP);
      var branch := Rand();
      if branch % 3 == 0 && i > 0 {
        var dy := RandRange(-BRANCH_OFFSET, BRANCH_OFFSET);
        next := next.(y := next.y + dy);
      }
    }

    /** G_GenerateArena: a fresh arena whose contents, and the PRNG state
        left behind, are those of the pure generation model. */
    method GenerateArena(seed: int, depth: int, theme: Theme) returns (arena: Arena)
      modifies this`randSeed
      ensures fresh(arena) && fresh(arena.corridors) && fresh(arena.playerSpawns)
      ensures fresh(arena.enemySpawns) && fresh(arena.itemSpawns)
      ensures arena.Valid()
      ensures arena.Value() == Generate(seed, depth, theme).arena
      ensures randSeed == Generate(seed, depth, theme).seed
    {
      arena := new Arena(seed, depth, theme);
      SetSeed(seed + depth);
      var chain, count := GenerateRooms(seed, depth, theme);
      BuildArena(arena, chain, count);
    }

    /** Stores the linked chain in a zero-filled arena and fills in the
        rest: the arena holds what the generation model assembles from that
        chain and the current PRNG state. */
    method BuildArena(arena: Arena, chain: seq<Room>, count: int)
      requires arena.Valid() && count == |chain| <= MAX_ARENA_ROOMS
      requires arena.numCorridors == arena.numPlayerSpawns == 0 && arena.exitPortal == Origin
      modifies this`randSeed, arena`rooms, arena`numRooms, arena`numCorridors, arena.corridors
      modifies arena`numPlayerSpawns, arena.playerSpawns, arena`numEnemySpawns, arena.enemySpawns
      modifies arena`numItemSpawns, arena.itemSpawns, arena`exitPortal, arena`worldMins, arena`worldMaxs
      ensures arena.Valid()
      ensures var g := Assemble(arena.seed, arena.depth, arena.theme, chain, old(randSeed));
        arena.Value() == g.arena && randSeed == g.seed
    {
      arena.rooms := chain;
      arena.numRooms := count;
      ghost var pop := Populate(chain, arena.depth, randSeed);
      FillArena(arena, arena.depth, arena.theme);
      assert arena.Value() == Assemble(arena.seed, arena.depth, arena.theme, chain, old(randSeed)).arena;
    }

    /** The rest of G_GenerateArena once the chain is linked: corridors,
        the four placement passes and the world bounds, over a zero-filled
        arena. */
    method FillArena(arena: Arena, depth: int, theme: Theme)
      requires arena.Valid() && |arena.rooms| <= MAX_ARENA_ROOMS
      requires arena.numCorridors == arena.numPlayerSpawns == 0 && arena.exitPortal == Origin
      modifies this`randSeed, arena`numCorridors, arena.corridors, arena`numPlayerSpawns, arena.playerSpawns
      modifies arena`numEnemySpawns, arena.enemySpawns, arena`numItemSpawns, arena.itemSpawns
      modifies arena`exitPortal, arena`worldMins, arena`worldMaxs
      ensures arena.Valid()
      ensures var pop := Populate(arena.rooms, depth, old(randSeed));
        && arena.corridors[..arena.numCorridors] == Corridors(arena.rooms, theme)
        && arena.playerSpawns[..arena.numPlayerSpawns] == pop.playerSpawns
        && arena.enemySpawns[..arena.numEnemySpawns] == pop.enemySpawns
        && arena.itemSpawns[..arena.numItemSpawns] == pop.itemSpawns
        && arena.exitPortal == pop.exitPortal && randSeed == pop.seed
      ensures arena.worldMins == WORLD_MINS && arena.worldMaxs == WORLD_MAXS
    {
      BuildCorridors(arena, theme);
      ghost var corridors := arena.corridors[..arena.numCorridors];
      PopulateArena(arena, depth);
      assert arena.corridors[..arena.numCorridors] == corridors;
      arena.worldMins := WORLD_MINS;
      arena.worldMaxs := WORLD_MAXS;
    }

    /** The room count and the room loop of G_GenerateArena, right after
        the reseed: the chain it links is the generated rooms newest first,
        the count is their number, and the PRNG state is the one the layout
        model leaves. */
    method GenerateRooms(seed: int, depth: int, theme: Theme) returns (chain: seq<Room>, count: int)
      requires randSeed == ToUnsigned(seed + depth)
      modifies this`randSeed
      ensures var layout := LayoutFor(seed, depth, theme);
        && chain == Reverse(layout.rooms) && count == |layout.rooms| <= MAX_ARENA_ROOMS
        && randSeed == layout.seed
    {
      var numRooms := DrawRoomCount(depth);
      chain, count := LinkRooms(numRooms, depth, theme);
      assert count <= MAX_ARENA_ROOMS by {
        LayoutOk(seed, depth, theme);
      }
    }

    /** 3 + depth rooms and up to depth more, capped at MAX_ARENA_ROOMS. */
    method DrawRoomCount(depth: int) returns (numRooms: int)
      modifies this`randSeed
      ensures Draw(numRooms, randSeed) == RoomCount(depth, old(randSeed))
    {
      var r := RandRange(0, depth);
      numRooms := 3 + depth + r;
      if numRooms > MAX_ARENA_ROOMS {
        numRooms := MAX_ARENA_ROOMS;
      }
    }

    /** The room loop: each new room is linked in front of the previous
        ones. */
    method LinkRooms(numRooms: int, depth: int, theme: Theme) returns (chain: seq<Room>, count: int)
      modifies this`randSeed
      ensures var layout := GenRooms(0, numRooms, depth, theme, Origin, [], old(randSeed));
        chain == Reverse(layout.rooms) && count == |layout.rooms| && randSeed == layout.seed
    {
      ghost var layout := GenRooms(0, numRooms, depth, theme, Origin, [], randSeed);
      var cursor := Origin;
      chain := [];
      ghost var gen: seq<Room> := [];
      count := 0;
      var i := 0;
      while i < numRooms
        invariant 0 <= i == |gen| == count && (i <= numRooms || i == 0)
        invariant GenRooms(i, numRooms, depth, theme, cursor, gen, randSeed) == layout
        invariant chain == Reverse(gen)
        decreases numRooms - i
      {
        var room, next := GenerateRoom(i, numRooms, depth, theme, cursor);
        assert (gen + [room])[..|gen|] == gen;
        chain := [room] + chain;   // the new room links to the previous one
        gen := gen + [room];
        count := count + 1;
        cursor := next;
        i := i + 1;
      }
    }

    /** The four placement passes of G_GenerateArena over an arena with no
        player spawns and the portal at the origin: the spawn tables, the
        portal and the PRNG state become those of the pure model. */
    method PopulateArena(arena: Arena, depth: int)
      requires arena.Valid() && arena.numPlayerSpawns == 0 && arena.exitPortal == Origin
      modifies this`randSeed, arena`numPlayerSpawns, arena.playerSpawns
      modifies arena`numEnemySpawns, arena.enemySpawns, arena`numItemSpawns, arena.itemSpawns
      modifies arena`exitPortal
      ensures arena.Valid()
      ensures var pop := Populate(arena.rooms, depth, old(randSeed));
        && arena.playerSpawns[..arena.numPlayerSpawns] == pop.playerSpawns
        && arena.enemySpawns[..arena.numEnemySpawns] == pop.enemySpawns
        && arena.itemSpawns[..arena.numItemSpawns] == pop.itemSpawns
        && arena.exitPortal == pop.exitPortal && randSeed == pop.seed
    {
      PlacePlayerSpawns(arena, REQUESTED_PLAYERS);
      PlaceEnemySpawns(arena, depth);
      PlaceItems(arena, depth);
      PlaceExitPortal(arena);
    }

    /** The corridor walk over the chain: corridor k joins chain nodes k
        and k + 1 for every neighbouring pair. */
    method BuildCorridors(arena: Arena, theme: Theme)
      requires arena.Valid() && arena.numCorridors == 0 && |arena.rooms| <= MAX_ARENA_ROOMS
      modifies arena`numCorridors, arena.corridors
      ensures arena.Valid() && arena.corridors[..arena.numCorridors] == Corridors(arena.rooms, theme)
    {
      var k := 0;
      while k + 1 < |arena.rooms|
        invariant 0 <= k && (k < |arena.rooms| || k == 0)
        invariant arena.numCorridors == k
        invariant arena.corridors[..k] == Corridors(arena.rooms, theme)[..k]
        decreases |arena.rooms| - k
      {
        var room := arena.rooms[k];
        var next := arena.rooms[k + 1];
        arena.corridors[arena.numCorridors] :=
          Corridor(k, k + 1, room.origin, next.origin, CORRIDOR_WIDTH, theme);
        arena.numCorridors := arena.numCorridors + 1;
        k := k + 1;
      }
    }

    /** G_PlacePlayerSpawns: nothing changes without a start room;
        otherwise the spawns of the first start room are written from
        slot 0. */
    method PlacePlayerSpawns(arena: Arena, numPlayers: int)
      requires arena.Valid()
      modifies this`randSeed, arena`numPlayerSpawns, arena.playerSpawns
      ensures arena.Valid()
      ensures PlayerSpawns(arena.rooms, numPlayers, old(randSeed)).None? ==>
                randSeed == old(randSeed) && arena.numPlayerSpawns == old(arena.numPlayerSpawns) &&
                arena.playerSpawns[..] == old(arena.playerSpawns[..])
      ensures PlayerSpawns(arena.rooms, numPlayers, old(randSeed)).Some? ==>
                var placed := PlayerSpawns(arena.rooms, numPlayers, old(randSeed)).value;
                arena.playerSpawns[..arena.numPlayerSpawns] == placed.spawns && randSeed == placed.seed
    {
      var k := 0;
      while k < |arena.rooms|
        invariant 0 <= k <= |arena.rooms|
        invariant FindRoom(arena.rooms, StartRole, k) == FindRoom(arena.rooms, StartRole, 0)
        invariant randSeed == old(randSeed) && arena.numPlayerSpawns == old(arena.numPlayerSpawns)
        invariant arena.playerSpawns[..] == old(arena.playerSpawns[..])
        decreases |arena.rooms| - k
      {
        var room := arena.rooms[k];
        if room.isStartRoom {
          var placed := PlaceStartSpawns(arena, room.origin, numPlayers);
          arena.numPlayerSpawns := placed;
          return;
        }
        k := k + 1;
      }
    }

    /** The spawn loop of G_PlacePlayerSpawns around the start room's
        origin, writing from slot 0. */
    method PlaceStartSpawns(arena: Arena, center: Vec3, numPlayers: int) returns (placed: int)
      requires arena.playerSpawns.Length == MAX_CLIENTS
      modifies this`randSeed, arena.playerSpawns
      ensures 0 <= placed <= MAX_CLIENTS
      ensures var r := PlayerLoop(center, 0, numPlayers, [], old(randSeed));
        arena.playerSpawns[..placed] == r.spawns && randSeed == r.seed
    {
      ghost var target := PlayerLoop(center, 0, numPlayers, [], randSeed);
      ghost var acc: seq<Vec3> := [];
      placed := 0;
      var i := 0;
      while i < numPlayers && i < MAX_CLIENTS
        invariant 0 <= i <= MAX_CLIENTS && placed == i == |acc|
        invariant PlayerLoop(center, i, numPlayers, acc, randSeed) == target
        invariant arena.playerSpawns[..placed] == acc
        decreases MAX_CLIENTS - i
      {
        ghost var s := randSeed;
        var dx := RandRange(-PLAYER_JITTER, PLAYER_JITTER);
        ghost var s1 := randSeed;
        var dy := RandRange(-PLAYER_JITTER, PLAYER_JITTER);
        var p := Vec3(center.x + dx, center.y + dy, center.z + SPAWN_HEIGHT);
        assert ArenaRand.RandRange(s, -PLAYER_JITTER, PLAYER_JITTER) == Draw(dx, s1);
        assert PlayerLoop(center, i, numPlayers, acc, s)
            == PlayerLoop(center, i + 1, numPlayers, acc + [p], randSeed);
        arena.playerSpawns[placed] := p;
        acc := acc + [p];
        assert arena.playerSpawns[..placed + 1] == acc;
        placed := placed + 1;
        i := i + 1;
      }
    }

    /** A spawn point jittered around the room's origin by up to a
        `div`-th of its width on x and of its depth on y, at spawn height,
        drawing as JitterInRoom does. The lower bounds are written -w/div
        and -d/div, which C truncates toward zero. */
    method DrawJitter(room: Room, div: int) returns (p: Vec3)
      requires div > 0
      modifies this`randSeed
      ensures Point(p, randSeed) == JitterInRoom(room, div, old(randSeed))
    {
      CDivNegate(room.width, div);
      CDivNegate(room.depth, div);
      var dx := RandRange(CDiv(-room.width, div), CDiv(room.width, div));
      var dy := RandRange(CDiv(-room.depth, div), CDiv(room.depth, div));
      p := Vec3(room.origin.x + dx, room.origin.y + dy, room.origin.z + SPAWN_HEIGHT);
    }

    /** One room's share of G_PlaceEnemySpawns, from slot `placed` on. */
    method PlaceRoomEnemies(arena: Arena, room: Room, numEnemies: int, placed: int, ghost acc: seq<Vec3>)
      returns (placed': int, ghost acc': seq<Vec3>)
      requires arena.Valid() && 0 <= placed <= numEnemies <= MAX_ARENA_ENTITIES
      requires arena.enemySpawns[..placed] == acc
      modifies this`randSeed, arena.enemySpawns
      ensures arena.Valid() && placed <= placed' <= numEnemies
      ensures var r := EnemyRoom(room, 0, EnemyQuota(room), numEnemies, acc, old(randSeed));
        && arena.enemySpawns[..placed'] == acc' == r.spawns && randSeed == r.seed
    {
      var roomEnemies := CDiv(room.width * room.depth, 256 * 256);
      if roomEnemies < 1 {
        roomEnemies := 1;
      }
      if room.isBossRoom {
        roomEnemies := 1;
      }
      ghost var target := EnemyRoom(room, 0, roomEnemies, numEnemies, acc, randSeed);
      acc' := acc;
      placed' := placed;
      var i := 0;
      while i < roomEnemies && placed' < numEnemies
        invariant 0 <= i && placed <= placed' <= numEnemies && placed' == |acc'|
        invariant EnemyRoom(room, i, roomEnemies, numEnemies, acc', randSeed) == target
        invariant arena.enemySpawns[..placed'] == acc'
        decreases roomEnemies - i
      {
        ghost var pt := JitterInRoom(room, 3, randSeed);
        assert EnemyRoom(room, i, roomEnemies, numEnemies, acc', randSeed)
            == EnemyRoom(room, i + 1, roomEnemies, numEnemies, acc' + [pt.p], pt.seed);
        var p := DrawJitter(room, 3);
        arena.enemySpawns[placed'] := p;
        acc' := acc' + [p];
        assert arena.enemySpawns[..placed' + 1] == acc';
        placed' := placed' + 1;
        i := i + 1;
      }
    }

    /** G_PlaceEnemySpawns: the table prefix and the PRNG state are those
        of the pure enemy pass over the chain. */
    method PlaceEnemySpawns(arena: Arena, depth: int)
      requires arena.Valid()
      modifies this`randSeed, arena`numEnemySpawns, arena.enemySpawns
      ensures arena.Valid()
      ensures var r := EnemySpawns(arena.rooms, depth, old(randSeed));
        arena.enemySpawns[..arena.numEnemySpawns] == r.spawns && randSeed == r.seed
    {
      var rooms := arena.rooms;
      var extra := RandRange(0, depth);
      var numEnemies := 5 + depth * 3 + extra;
      if numEnemies > MAX_ARENA_ENTITIES {
        numEnemies := MAX_ARENA_ENTITIES;
      }
      ghost var target := EnemyChain(rooms, 0, numEnemies, [], randSeed);
      assert target == EnemySpawns(rooms, depth, old(randSeed));
      ghost var acc: seq<Vec3> := [];
      var placed := 0;
      var k := 0;
      while k < |rooms| && placed < numEnemies
        invariant arena.Valid() && arena.numEnemySpawns == old(arena.numEnemySpawns)
        invariant 0 <= k <= |rooms| && 0 <= placed == |acc| <= MAX_ARENA_ENTITIES
        invariant placed <= numEnemies || placed == 0
        invariant EnemyChain(rooms, k, numEnemies, acc, randSeed) == target
        invariant arena.enemySpawns[..placed] == acc
        decreases |rooms| - k
      {
        var room := rooms[k];
        if room.isStartRoom {
          k := k + 1;
          continue;
        }
        ghost var s := randSeed;
        ghost var before := acc;
        placed, acc := PlaceRoomEnemies(arena, room, numEnemies, placed, acc);
        assert EnemyChain(rooms, k, numEnemies, before, s)
            == EnemyChain(rooms, k + 1, numEnemies, acc, randSeed);
        k := k + 1;
      }
      arena.numEnemySpawns := placed;
    }

    /** G_PlaceItems: the table prefix and the PRNG state are those of the
        pure item pass over the chain. */
    method PlaceItems(arena: Arena, depth: int)
      requires arena.Valid()
      modifies this`randSeed, arena`numItemSpawns, arena.itemSpawns
      ensures arena.Valid()
      ensures var r := ItemSpawns(arena.rooms, depth, old(randSeed));
        arena.itemSpawns[..arena.numItemSpawns] == r.spawns && randSeed == r.seed
    {
      var rooms := arena.rooms;
      var extra := RandRange(0, 3);
      var numItems := 3 + depth + extra;
      if numItems > MAX_ARENA_ENTITIES / 2 {
        numItems := MAX_ARENA_ENTITIES / 2;
      }
      ghost var target := ItemChain(rooms, 0, numItems, [], randSeed);
      assert target == ItemSpawns(rooms, depth, old(randSeed));
      ghost var acc: seq<Vec3> := [];
      var placed := 0;
      var k := 0;
      while k < |rooms| && placed < numItems
        invariant 0 <= k <= |rooms| && 0 <= placed == |acc| <= MAX_ARENA_ENTITIES / 2
        invariant ItemChain(rooms, k, numItems, acc, randSeed) == target
        invariant arena.itemSpawns[..placed] == acc
        decreases |rooms| - k
      {
        var room := rooms[k];
        if !room.isStartRoom {
          ghost var pt := JitterInRoom(room, 4, randSeed);
          assert ItemChain(rooms, k, numItems, acc, randSeed)
              == ItemChain(rooms, k + 1, numItems, acc + [pt.p], pt.seed);
          var p := DrawJitter(room, 4);
          arena.itemSpawns[placed] := p;
          acc := acc + [p];
          assert arena.itemSpawns[..placed + 1] == acc;
          placed := placed + 1;
        }
        k := k + 1;
      }
      arena.numItemSpawns := placed;
    }

    /** G_PlaceExitPortal: the portal of the first exit room in the chain,
        or the portal left as it was. */
    method PlaceExitPortal(arena: Arena)
      modifies arena`exitPortal
      ensures arena.exitPortal == ExitPortal(arena.rooms, old(arena.exitPortal))
    {
      var k := 0;
      while k < |arena.rooms|
        invariant 0 <= k <= |arena.rooms|
        invariant FindRoom(arena.rooms, ExitRole, k) == FindRoom(arena.rooms, ExitRole, 0)
        invariant arena.exitPortal == old(arena.exitPortal)
        decreases |arena.rooms| - k
      {
        var room := arena.rooms[k];
        if room.isExitRoom {
          arena.exitPortal := room.origin.(z := room.origin.z + SPAWN_HEIGHT);
          return;
        }
        k := k + 1;
      }
    }

    // -------------------------------------------------------------------
    // Roguelike run

    /** G_StartRoguelikeRun: a fresh run at depth 1 becomes the current
        run, with the Tech arena of depth 1 for its seed. */
    method StartRun(seed: int, permadeath: bool) returns (run: Run)
      modifies this`currentRun, this`randSeed
      ensures fresh(run) && currentRun == run && run.State() == NewRun(seed, permadeath)
      ensures run.currentArena != null && fresh(run.currentArena) && run.currentArena.Valid()
      ensures run.currentArena.Value() == Generate(seed, 1, Tech).arena
      ensures randSeed == Generate(seed, 1, Tech).seed
    {
      run := new Run(seed, permadeath);
      currentRun := run;
      var arena := GenerateArena(seed, 1, Tech);
      run.currentArena := arena;
    }

    /** G_AdvanceToNextArena: false and no change for a null run;
        otherwise one level deeper, the deepest level reached updated, and
        a new arena for the run's seed, the new depth and its theme tier. */
    method AdvanceToNextArena(run: Run?) returns (ok: bool)
      modifies this`randSeed, run
      ensures ok <==> run != null
      ensures run == null ==> randSeed == old(randSeed)
      ensures run != null ==> run.State() == Advanced(old(run.State()))
      ensures run != null ==>
                var g := Generate(run.seed, run.currentDepth, ThemeForDepth(run.currentDepth));
                && run.currentArena != null && fresh(run.currentArena) && run.currentArena.Valid()
                && run.currentArena.Value() == g.arena && randSeed == g.seed
    {
      if run == null {
        return false;
      }
      run.Descend();
      NextArena(run);
      return true;
    }

    /** The arena part of G_AdvanceToNextArena: the theme tier of the run's
        current depth, and a new arena for it. */
    method NextArena(run: Run)
      modifies this`randSeed, run`currentArena
      ensures var g := Generate(run.seed, run.currentDepth, ThemeForDepth(run.currentDepth));
        && run.currentArena != null && fresh(run.currentArena) && run.currentArena.Valid()
        && run.currentArena.Value() == g.arena && randSeed == g.seed
    {
      var theme := Tech;
      if run.currentDepth >= 10 {
        theme := Hell;
      } else if run.currentDepth >= 6 {
        theme := Space;
      } else if run.currentDepth >= 3 {
        theme := Gothic;
      }
      run.currentArena := GenerateArena(run.seed, run.currentDepth, theme);
    }

    /** G_EndRoguelikeRun: ending the current run clears it; ending any
        other run, or none, leaves the current run as it was. */
    method EndRun(run: Run?, victory: bool)
      modifies this`currentRun
      ensures currentRun == (if run != null && run == old(currentRun) then null else old(currentRun))
    {
      if run == null {
        return;
      }
      if run == currentRun {
        currentRun := null;
      }
    }

    /** G_GetCurrentRun: the run most recently started and not ended. */
    method GetCurrentRun() returns (run: Run?)
      ensures run == currentRun
    {
      run := currentRun;
    }

    /** G_CalculateArenaDifficulty: 0 without an arena, otherwise the
        difficulty score of its contents. */
    method CalculateArenaDifficulty(arena: Arena?) returns (d: int)
      requires arena != null ==> arena.Valid()
      ensures arena == null ==> d == 0
      ensures arena != null ==> d == ArenaDifficulty(arena.Value())
    {
      if arena == null {
        return 0;
      }
      d := arena.depth * 100 + arena.numEnemySpawns * 10 + arena.numRooms;
    }
  }
}
