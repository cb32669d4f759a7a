# Procedural arena generator and extended movement, modelled in Dafny

This project models two parts of a Quake III Arena derivative.

**Arena generator** (`code/game/g_arena_gen.c`, `code/game/g_arena_gen.h`). From a seed, a depth and a theme, the generator builds an arena:

- It seeds a 32-bit linear congruential generator with `seed + depth`.
- It draws the room count, then lays the rooms out along x. The first room is the start room and the last is the exit room. On every fifth depth the room before the exit is a boss room. The other rooms get a random type, sized by type and depth.
- It links the rooms into a list, newest first.
- It joins neighbouring list nodes with corridors.
- It runs four placement passes: player spawns in the start room, enemy spawns and items in the other rooms, and the exit portal above the exit room.
- Around this sit a roguelike run (start, advance one depth with its theme tier, end, current run) and a difficulty score.

**Movement** (`code/game/bg_movement.c`, `code/game/bg_movement.h`). This part covers the integer and flag logic of the extended moves:

- the eight-way movement direction;
- the in-air test;
- the guards and state effects of double jump, dodge, slide and wall run;
- the legs-animation toggle;
- the bullet-time energy meter.

## Structure

| module | file | contents |
|---|---|---|
| `CInt` | `c_int.dfy` | C's truncating division, `Min`, `Max` |
| `ArenaTypes` | `arena_types.dfy` | room types, themes, rooms, corridors, name lookups, room creation |
| `ArenaRand` | `arena_rand.dfy` | the generator's PRNG as functions of its 32-bit state |
| `ArenaLayout` | `arena_layout.dfy` | room count, room types and sizes, the room loop, the reversed chain, corridors |
| `ArenaPlacement` | `arena_placement.dfy` | the four placement passes as functions of the chain and the PRNG state |
| `ArenaSpec` | `arena_spec.dfy` | the whole generation as one function, lemmas about every generated arena, run state, theme tiers, difficulty |
| `ArenaGen` | `arena_gen.dfy` | classes `Arena`, `Run` and `Generator`. The generator holds the file's globals `arenaRandSeed` and `currentRun`. Its methods work on arrays with loops, like the C, and are proved equal to the functions above |
| `Movement` | `movement.dfy` | the movement direction, the animation toggle, bullet time, and class `PlayerState` with the guards and the `Do*` effects |

### How the model relates to the C

- **PRNG state.** The functions thread the PRNG state explicitly. Every `Generator` method ensures that its result and the new `randSeed` are what the matching function computes from the old state. Generating an arena therefore yields exactly `Generate(seed, depth, theme)`. The properties of that value are proved as lemmas in `ArenaSpec`.
- **Room order.** The C keeps rooms in a singly linked list whose head is the newest room. `Arena.rooms` holds that list as a sequence in list order, so list index k is generated room n-1-k.

## Model

| member | source | states |
|---|---|---|
| `ArenaRand.Rand` | code/game/g_arena_gen.c:17-20 | one draw advances the state by one LCG step modulo 2^32 and yields a value in 0..32767 |
| `ArenaRand.ToUnsigned` | code/game/g_arena_gen.c:22-24 | the seed stored as `unsigned int` equals the `int` seed when that is non-negative, and is congruent to it modulo 2^32 otherwise |
| `ArenaRand.RandRange` | code/game/g_arena_gen.c:26-29 | an empty range (max <= min) yields min and draws nothing; otherwise the value lies in [min, max] and exactly one draw is made |
| `ArenaTypes.ThemeName` | code/game/g_arena_gen.c:54-57 | "Unknown" exactly for values outside the theme enumeration, the theme's table name otherwise |
| `ArenaTypes.RoomTypeName` | code/game/g_arena_gen.c:64-67 | "Unknown" exactly for values outside the room-type enumeration, the type's table name otherwise |
| `ArenaTypes.NamesIdentifyValues` | code/game/g_arena_gen.c:46-67 | two in-range values with the same name are the same value, for themes and for room types |
| `ArenaTypes.CreateRoom` | code/game/g_arena_gen.c:82-110 | the room keeps type, origin and sizes; its box spans width/2 and depth/2 (truncated) either side and the height upwards; only start and exit types set their flag; the boss flag is never set; the theme defaults to Tech |
| `CInt.CDiv` | code/game/g_arena_gen.c:92-97 | C division by a positive divisor: the quotient rounds toward zero and the remainder takes the dividend's sign |
| `CInt.CDivNegate` | code/game/g_arena_gen.c:303-304 | `-(w/3)` equals `(-w)/3` in C, so every jitter range used by the source is symmetric |
| `ArenaLayout.RoomCount` | code/game/g_arena_gen.c:134-135 | the count never exceeds MAX_ARENA_ROOMS; for positive depth it lies between min(3+depth, 64) and min(3+2·depth, 64); for non-positive depth it is 3+depth and nothing is drawn |
| `ArenaLayout.TypeForRoll` | code/game/g_arena_gen.c:158-163 | a roll maps to one of the five randomly chosen types only |
| `ArenaLayout.PickType` | code/game/g_arena_gen.c:142-164 | position 0 is Start, the last is Exit, the one before it is Boss on every fifth depth, and every other position gets a random type; only random positions consume a draw |
| `ArenaLayout.RoomSizeFits` | code/game/g_arena_gen.c:166-179 | corridor rooms are 512..768 wide and 128 deep; boss rooms are 512+32·depth square and 384 high; all others are 256+16·depth..384+16·depth wide and deep and 256..320 high |
| `ArenaLayout.GenRoomOk` | code/game/g_arena_gen.c:141-198 | one iteration creates a room that fits its position at the cursor, in the arena's theme, and moves the cursor past it by width+128 on x and at most 256 on y (never after the first room) |
| `ArenaLayout.GenRoomsOk` | code/game/g_arena_gen.c:141-199 | the loop yields max(i, n) rooms that extend the rooms so far, each fitting its position, the first at the origin, each placed at the cursor the previous one left |
| `ArenaLayout.RoomRoles` | code/game/g_arena_gen.c:144-155 | in a laid-out sequence only the first room is a start room; only the last room is an exit room, and only when there are two or more; a boss type appears only second to last on every fifth depth with three or more rooms; no room has the boss flag |
| `ArenaLayout.RoomsAlongX` | code/game/g_arena_gen.c:192-198 | room k stands at the summed widths-plus-gaps of the rooms before it, so rooms advance strictly along x |
| `ArenaLayout.ReverseAt` | code/game/g_arena_gen.c:184-201 | linking each new room in front of the previous one makes list node k the room generated at position n-1-k |
| `ArenaLayout.CorridorsJoinNeighbours` | code/game/g_arena_gen.c:203-218 | there are max(n-1, 0) corridors; corridor k joins list nodes k and k+1, runs from one origin to the other, is 128 wide and has the arena's theme |
| `ArenaLayout.CorridorSpan` | code/game/g_arena_gen.c:193-218 | each corridor spans the earlier-generated room's width (the room at its `end`) plus the 128 gap on x, at most 256 on y, and lies on z = 0 |
| `ArenaPlacement.FindRoom` | code/game/g_arena_gen.c:257-277 | the search returns the first list node at or after k with the start (or exit) flag, or none when no later node has it |
| `ArenaPlacement.JitterInRoom` | code/game/g_arena_gen.c:303-305 | a jittered point lies within a div-th of the room's width and depth of its origin, at spawn height |
| `ArenaPlacement.PlayerLoopOk` | code/game/g_arena_gen.c:264-272 | the spawn loop adds max(0, min(numPlayers, MAX_CLIENTS) - i) points, all within 64 of the centre on x and y and 24 above it |
| `ArenaPlacement.PlayerSpawnsInStartRoom` | code/game/g_arena_gen.c:256-279 | with no start room nothing is placed and nothing is drawn; otherwise min(numPlayers, MAX_CLIENTS) spawns are placed around the first start room in list order |
| `ArenaPlacement.EnemyTarget` | code/game/g_arena_gen.c:283-284 | the enemy budget lies between min(5+3·depth, 512) and min(5+3·depth+max(depth, 0), 512): the draw in [0, depth] is 0 for negative depth |
| `ArenaPlacement.EnemyQuota` | code/game/g_arena_gen.c:297-299 | a room's quota is at least 1, is 1 for a boss-flagged room, and is otherwise max(1, width·depth/65536) |
| `ArenaPlacement.EnemyRoomOk` | code/game/g_arena_gen.c:301-309 | the per-room loop adds min(quota, remaining budget) points after the earlier ones, each within a third of the room's width and depth |
| `ArenaPlacement.EnemyChainOk` | code/game/g_arena_gen.c:289-312 | the list walk stops at the budget and otherwise places the quotas of all non-start rooms; every enemy lies near a non-start room |
| `ArenaPlacement.EnemySpawnsOk` | code/game/g_arena_gen.c:281-316 | the pass places exactly max(0, min(budget, total quota)) enemies, never more than MAX_ARENA_ENTITIES, each near a room that is not the start room |
| `ArenaPlacement.ItemTarget` | code/game/g_arena_gen.c:320-321 | the item budget is between min(3+depth, 256) and min(6+depth, 256) after one draw |
| `ArenaPlacement.ItemChainOk` | code/game/g_arena_gen.c:326-337 | the list walk places one item per non-start room in list order until the budget is met; item m lies within a quarter of the m-th such room's size |
| `ArenaPlacement.ItemSpawnsOk` | code/game/g_arena_gen.c:318-341 | the pass places max(0, min(budget, non-start rooms)) items, at most MAX_ARENA_ENTITIES/2, no two in the same room |
| `ArenaPlacement.ExitPortal` | code/game/g_arena_gen.c:343-357 | without an exit room the portal is unchanged; otherwise it is the origin of the first exit room in list order, raised by 24 |
| `ArenaSpec.LayoutOk` | code/game/g_arena_gen.c:131-199 | a generated layout has max(0, count) rooms, at most 64, between min(3+depth, 64) and min(3+2·depth, 64) for positive depth and max(0, 3+depth) otherwise; every room fits its position and the layout has the start/exit/size shape |
| `ArenaSpec.LayoutShaped` | code/game/g_arena_gen.c:141-199 | a generated layout starts at the origin on z = 0, has a unique start room first, an exit room last (when there are two or more), and positive sizes |
| `ArenaSpec.ChainIsReversed` | code/game/g_arena_gen.c:184-201 | the arena's list holds the generated rooms newest first, and its room count is their number |
| `ArenaSpec.GeneratedRoles` | code/game/g_arena_gen.c:141-155 | in every generated layout: the start room is first, the exit room last (n >= 2), the boss type second to last on every fifth depth (n >= 3), and no room has the boss flag |
| `ArenaSpec.ReversedRoles` | code/game/g_arena_gen.c:184-201 | the list of a well-shaped layout has its single start room at the tail and its single exit room at the head |
| `ArenaSpec.ChainRoles` | code/game/g_arena_gen.c:116-201 | in every generated arena the start-room search finds the tail of the list and the exit-room search finds the head, and each role is unique |
| `ArenaSpec.CorridorsOk` | code/game/g_arena_gen.c:203-218 | over any layout that satisfies `RoomsOk` (every room fits its position and stands at the cursor the previous one left) and has at most 64 rooms, the corridor walk gives n-1 corridors (fewer than MAX_ARENA_CORRIDORS), each joining consecutively generated rooms and spanning their width plus the gap |
| `ArenaSpec.GeneratedCorridors` | code/game/g_arena_gen.c:203-218 | every generated arena's corridors join its consecutively generated rooms, in list order |
| `ArenaSpec.PopulateOk` | code/game/g_arena_gen.c:220-224 | after the four passes over a well-shaped list: 8 player spawns around the origin (none without rooms); enemies within the entity cap and near non-start rooms; items within half the cap, one per non-start room; the portal above the last generated room when there are two or more |
| `ArenaSpec.GeneratedSpawns` | code/game/g_arena_gen.c:116-236 | the same placement facts hold for every generated arena |
| `ArenaSpec.NewRunOk` | code/game/g_arena_gen.c:369-378 | a new run starts at depth 1, which is also the deepest depth, with the given seed and permadeath flag, no score, no kills, and 1 life under permadeath, 3 otherwise |
| `ArenaSpec.AdvancedOk` | code/game/g_arena_gen.c:397-401 | advancing raises the depth by one, keeps the deepest depth at max(old deepest, new depth) and keeps 1 <= depth <= deepest; nothing else changes |
| `ArenaSpec.ThemeForDepth` | code/game/g_arena_gen.c:403-407 | the tier theme is never the Random theme |
| `ArenaSpec.ThemeTiersMonotone` | code/game/g_arena_gen.c:403-407 | a deeper level never gets an earlier theme tier (Tech, Gothic, Space, Hell) |
| `ArenaSpec.GeneratedDifficultyBounds` | code/game/g_arena_gen.c:466-471 | a generated arena's score is at least 100·depth plus its room count, and exceeds 100·depth by at most 10·512+64 |
| `ArenaLayout.RoomSize` | code/game/g_arena_gen.c:166-179 | definition: the three size draws of one room, then the corridor and boss overrides (the corridor override draws once more); its ranges are proved in `RoomSizeFits` |
| `ArenaLayout.GenRoom` | code/game/g_arena_gen.c:142-198 | definition: one iteration of the room loop (type, sizes, room at the cursor in the arena's theme, cursor advance, branch draw); its properties are proved in `GenRoomOk` |
| `ArenaLayout.GenRooms` | code/game/g_arena_gen.c:141-199 | definition: the room loop from iteration i to n-1, in generation order with the PRNG state threaded through; its properties are proved in `GenRoomsOk` |
| `ArenaLayout.Reverse` | code/game/g_arena_gen.c:184-201 | definition: the list order the linking produces, each new room in front of the previous ones; its length is kept, and `ReverseAt` proves which generated room each node is |
| `ArenaLayout.Corridors` | code/game/g_arena_gen.c:203-218 | definition: the corridor walk over the list, one corridor per pair of neighbouring nodes; its properties are proved in `CorridorsJoinNeighbours` and `CorridorSpan` |
| `ArenaPlacement.PlayerLoop` | code/game/g_arena_gen.c:264-272 | definition: the player spawn loop from iteration i, two draws in [-64, 64] per spawn while i is below both the request and MAX_CLIENTS; proved about in `PlayerLoopOk` |
| `ArenaPlacement.EnemyRoom` | code/game/g_arena_gen.c:301-309 | definition: the per-room enemy loop from iteration i, one jitter of a third of the room per enemy while i is below the quota and the budget is not met; proved about in `EnemyRoomOk` |
| `ArenaPlacement.EnemyChain` | code/game/g_arena_gen.c:289-312 | definition: the list walk from node k, skipping start rooms and running the per-room loop on the others until the budget is met; proved about in `EnemyChainOk` |
| `ArenaPlacement.ItemChain` | code/game/g_arena_gen.c:326-337 | definition: the list walk from node k, one jitter of a quarter of the room in each non-start room until the budget is met; proved about in `ItemChainOk` |
| `ArenaPlacement.PlayerSpawns` | code/game/g_arena_gen.c:256-279 | definition: the search for the first start room in list order, then the spawn loop around its origin; nothing when there is no start room; proved about in `PlayerSpawnsInStartRoom` |
| `ArenaPlacement.EnemySpawns` | code/game/g_arena_gen.c:281-316 | definition: the budget draw, then the walk over the list skipping start rooms; proved about in `EnemySpawnsOk` |
| `ArenaPlacement.ItemSpawns` | code/game/g_arena_gen.c:318-341 | definition: the budget draw, then one item per non-start room in list order; proved about in `ItemSpawnsOk` |
| `ArenaSpec.RoomCountFor` | code/game/g_arena_gen.c:131-135 | definition: the room count drawn right after reseeding with seed + depth; proved about in `RoomCount` and `LayoutOk` |
| `ArenaSpec.LayoutFor` | code/game/g_arena_gen.c:131-199 | definition: the room loop run from the origin for the drawn count, giving the rooms in generation order and the PRNG state after them; proved about in `LayoutOk`, `LayoutShaped` and `GeneratedRoles` |
| `ArenaSpec.Assemble` | code/game/g_arena_gen.c:201-228 | definition: the arena built around a linked list: its room count, the corridors over it, the four passes from the given PRNG state, and the world bounds; `BuildArena` is proved equal to it, and its properties for generated lists are proved in `GeneratedCorridors`, `GeneratedSpawns` and `GeneratedDifficultyBounds` |
| `ArenaSpec.Populate` | code/game/g_arena_gen.c:220-224 | definition: the four placement passes in the source's order, threading the PRNG state; proved about in `PopulateOk` |
| `ArenaSpec.Generate` | code/game/g_arena_gen.c:116-236 | definition: reseed with seed + depth, lay out the rooms, link them newest first, then `Assemble` (corridors, the four passes, world bounds); proved about in `LayoutOk`, `ChainRoles`, `GeneratedCorridors`, `GeneratedSpawns` and `GeneratedDifficultyBounds` |
| `ArenaSpec.NewRun` | code/game/g_arena_gen.c:369-378 | definition: the fields a new run is given; proved about in `NewRunOk` |
| `ArenaSpec.Advanced` | code/game/g_arena_gen.c:397-401 | definition: depth one deeper and the deepest depth raised to it if exceeded; proved about in `AdvancedOk` |
| `ArenaSpec.ArenaDifficulty` | code/game/g_arena_gen.c:466-471 | definition: 100·depth + 10·enemy spawns + rooms; bounded in `GeneratedDifficultyBounds` |
| `ArenaGen.Arena.constructor` | code/game/g_arena_gen.c:124-129 | a zero-filled arena with the given seed, depth and theme, and fresh tables of the header's capacities |
| `ArenaGen.Run.constructor` | code/game/g_arena_gen.c:369-379 | the run's state is that of a new run: depth 1, deepest 1, no score, no kills, 1 or 3 lives |
| `ArenaGen.Run.Descend` | code/game/g_arena_gen.c:397-401 | the run's state becomes the advanced state |
| `ArenaGen.Generator.constructor` | code/game/g_arena_gen.c:12-14 | no current run and a zero PRNG state |
| `ArenaGen.Generator.Rand` | code/game/g_arena_gen.c:17-20 | returns the draw and leaves the state the PRNG function gives |
| `ArenaGen.Generator.SetSeed` | code/game/g_arena_gen.c:22-24 | the state becomes the seed converted to `unsigned int` |
| `ArenaGen.Generator.RandRange` | code/game/g_arena_gen.c:26-29 | returns the ranged draw and its state |
| `ArenaGen.Generator.PickRoomType` | code/game/g_arena_gen.c:142-164 | returns the type that `PickType` prescribes and its state |
| `ArenaGen.Generator.DrawRoomSize` | code/game/g_arena_gen.c:166-179 | returns the sizes of `RoomSize` and its state |
| `ArenaGen.Generator.GenerateRoom` | code/game/g_arena_gen.c:141-198 | one loop iteration: the room, the next cursor and the state of `GenRoom` |
| `ArenaGen.Generator.DrawRoomCount` | code/game/g_arena_gen.c:134-135 | the capped room count and its state |
| `ArenaGen.Generator.LinkRooms` | code/game/g_arena_gen.c:138-201 | the room loop links the generated rooms newest first and counts them |
| `ArenaGen.Generator.GenerateRooms` | code/game/g_arena_gen.c:131-201 | after the reseed, the linked list is the reversed layout of `LayoutFor`, at most 64 rooms |
| `ArenaGen.Generator.BuildCorridors` | code/game/g_arena_gen.c:203-218 | the corridor table's filled prefix is the corridor walk over the list |
| `ArenaGen.Generator.PlaceStartSpawns` | code/game/g_arena_gen.c:263-273 | the filled prefix of the spawn table is what the player spawn loop computes |
| `ArenaGen.Generator.PlacePlayerSpawns` | code/game/g_arena_gen.c:256-279 | with no start room, no change and no draw; otherwise the table prefix and state of `PlayerSpawns` |
| `ArenaGen.Generator.DrawJitter` | code/game/g_arena_gen.c:303-304 | the jittered point and state of `JitterInRoom` |
| `ArenaGen.Generator.PlaceRoomEnemies` | code/game/g_arena_gen.c:296-309 | the per-room loop extends the enemy table as `EnemyRoom` does, within the budget |
| `ArenaGen.Generator.PlaceEnemySpawns` | code/game/g_arena_gen.c:281-316 | the enemy table's prefix and the state are those of `EnemySpawns` |
| `ArenaGen.Generator.PlaceItems` | code/game/g_arena_gen.c:318-341 | the item table's prefix and the state are those of `ItemSpawns` |
| `ArenaGen.Generator.PlaceExitPortal` | code/game/g_arena_gen.c:343-357 | the portal becomes `ExitPortal` of the list and the old portal |
| `ArenaGen.Generator.PopulateArena` | code/game/g_arena_gen.c:220-224 | the four passes in order leave the tables and the state of `Populate` |
| `ArenaGen.Generator.FillArena` | code/game/g_arena_gen.c:203-228 | corridors, the four passes and the world bounds, each as the specification computes |
| `ArenaGen.Generator.BuildArena` | code/game/g_arena_gen.c:201-228 | storing the list and filling the rest gives the arena value of `Assemble` |
| `ArenaGen.Generator.GenerateArena` | code/game/g_arena_gen.c:116-236 | a fresh arena whose value, and the PRNG state left behind, are `Generate(seed, depth, theme)` |
| `ArenaGen.Generator.StartRun` | code/game/g_arena_gen.c:363-387 | a fresh current run in its new-run state, holding the generated depth-1 Tech arena |
| `ArenaGen.Generator.NextArena` | code/game/g_arena_gen.c:403-410 | the run's arena becomes the one generated for its seed, depth and tier theme |
| `ArenaGen.Generator.AdvanceToNextArena` | code/game/g_arena_gen.c:389-415 | false with no change for a null run; otherwise true, the advanced run state, and the arena generated for the new depth and its theme tier |
| `ArenaGen.Generator.EndRun` | code/game/g_arena_gen.c:417-434 | the current run is cleared exactly when the ended run is the current one |
| `ArenaGen.Generator.GetCurrentRun` | code/game/g_arena_gen.c:436-438 | returns the current run |
| `ArenaGen.Generator.CalculateArenaDifficulty` | code/game/g_arena_gen.c:466-471 | 0 for no arena, otherwise the depth/enemy/room score of the arena's value |
| `Movement.MovementDirection` | code/game/bg_movement.c:61-83 | -1 exactly when there is no input, otherwise one of the eight directions 0..7 |
| `Movement.DirectionMatchesSigns` | code/game/bg_movement.c:69-80 | the direction is the one compass sector whose forward and right signs match the input's, and no other sector matches |
| `Movement.DirectionOpposite` | code/game/bg_movement.c:69-80 | reversing both inputs turns the direction half way round, (d+4) mod 8 |
| `Movement.DirectionMirror` | code/game/bg_movement.c:69-80 | mirroring the strafe input mirrors the direction, (8-d) mod 8 |
| `Movement.ForcedLegsAnim` | code/game/bg_movement.c:24-27 | for an animation without the toggle bit, the result is that animation with the toggle bit flipped from before |
| `Movement.ForcedTwiceRestoresToggle` | code/game/bg_movement.c:24-27 | forcing the same animation twice restores the toggle bit |
| `Movement.DodgeLegsAnim` | code/game/bg_movement.c:227-234 | the dodge animation is the backward jump exactly for directions 3..5, the forward jump otherwise |
| `Movement.DodgeBackwardWhenMovingBack` | code/game/bg_movement.c:227-234 | a dodge with input plays the backward jump exactly when the forward input is negative |
| `Movement.BulletTimeStep` | code/game/bg_movement.c:434-464 | active: energy drains by 20·msec/1000 (truncated), floored at 0, and bullet time stays on exactly while energy remains; inactive: empty energy is refilled to 100, then it recharges by 10·msec/1000, capped at 100, and bullet time is off |
| `Movement.BulletTimeEnergyInRange` | code/game/bg_movement.c:434-464 | energy in 0..100 stays in 0..100, never rises while active and never falls while inactive |
| `Movement.BulletTimeRunsOut` | code/game/bg_movement.c:442-460 | for energy at most 100 and a frame of 5 seconds or more: an active step empties the meter and ends bullet time, and an inactive step from non-negative energy leaves positive energy (shorter frames are not covered by this lemma) |
| `Movement.PlayerState.IsInAir` | code/game/bg_movement.c:36-38 | definition: in the air exactly when the ground entity is ENTITYNUM_NONE; the guards below are stated in terms of it |
| `Movement.PlayerState.CanDoubleJump` | code/game/bg_movement.c:128-145 | the early-return chain allows a double jump exactly when the player is in the air and neither the double-jumped nor the jump-held flag is set |
| `Movement.PlayerState.CanDodge` | code/game/bg_movement.c:177-190 | a dodge is allowed exactly when the dodging flag is clear and at least 500 ms have passed since the time in the dodge slot |
| `Movement.PlayerState.CanSlide` | code/game/bg_movement.c:248-265 | a slide is allowed exactly when the player is on the ground, moving fast enough and not already sliding |
| `Movement.PlayerState.CanWallRun` | code/game/bg_movement.c:363-385 | a wall run is allowed exactly when the player is in the air, moving, not already wall running, and the wall normal is long enough |
| `Movement.PlayerState.GuardsOk` | code/game/bg_movement.c:128-385 | each guard holds exactly when its conditions do (in air / on ground, moving, wall found, flag clear, dodge cooldown passed); a player who can slide can neither double jump nor wall run |
| `Movement.PlayerState.ForceLegsAnim` | code/game/bg_movement.c:24-27 | the legs timer is reset and the animation forced with its toggle flipped |
| `Movement.PlayerState.DoDoubleJump` | code/game/bg_movement.c:154-164 | sets the double-jumped and jump-held flags, forces the jump animation, and a second double jump is then refused |
| `Movement.PlayerState.DoDodge` | code/game/bg_movement.c:199-235 | sets the dodging flag, stores the server time in the dodge slot only, sets the 400 ms timer, forces the direction's animation; no further dodge is allowed |
| `Movement.PlayerState.DoSlide` | code/game/bg_movement.c:274-310 | sets the sliding flag, stores the server time in the slide slot only, sets the 1500 ms timer and view height 15, forces the crouch animation; no further slide is allowed |
| `Movement.PlayerState.DoWallRun` | code/game/bg_movement.c:394-400 | sets the wall-running flag, stores the server time in the wall-run slot only, sets the 3000 ms timer; no further wall run is allowed |
| `Movement.PlayerState.UpdateBulletTime` | code/game/bg_movement.c:434-464 | the energy slot becomes the bullet-time step's energy, no other slot changes, and the bullet-time flag is set exactly when the step leaves it on |

## Code and design notes

- **Boss rooms.** `G_CreateRoom` (g_arena_gen.c:103) never sets the boss flag, and `G_GenerateArena` does not set it afterwards. So the one-enemy rule for boss rooms (g_arena_gen.c:299) never applies: a boss-typed room gets the area-based enemy quota like any other room. The design describes a single boss enemy. The model follows the code: `RoomRoles` and `GeneratedRoles` prove that no generated room has the flag.
- **Bullet-time refill.** `BG_UpdateBulletTime` refills the meter to 100 whenever bullet time is off and the energy slot is exactly 0 (bg_movement.c:438-440). The test is meant to initialise an unset slot, but it cannot tell an unset slot from one drained to 0. So a player who empties the meter gets the full 100 back on the next inactive frame, instead of recharging by 10 per second. The model follows the code: `BulletTimeStep` refills an empty meter when inactive.
- **Unreachable default.** `BG_GetMovementDirection` ends with a "default forward" return (bg_movement.c:82). Every non-zero input is caught by one of the eight tests before it, so `MovementDirection` marks that case as unreachable.
- **Engine constants.** The following are the stock engine values: `MAX_CLIENTS` (64), `ENTITYNUM_NONE` (1023), `ANIM_TOGGLEBIT` (128), `LEGS_JUMP` (18), `LEGS_JUMPB` (20), `LEGS_IDLECR` (23) and `MAX_POWERUPS` (16, the length of the player state's `powerups` array). They come from q_shared.h and bg_public.h, which are not part of this model. The powerup length agrees with the header comment at bg_movement.h:60-61, which gives 16 slots and puts the movement slots at 11-15. The `PMF_*` flags are modelled as members of a set, so their bit values do not matter.

## Left out

- Logging (`G_Printf`) and the clock (`trap_Milliseconds`, `generationTime`): output and time are not modelled.
- `G_InitArenaGenerator`, `G_PrintArenaInfo` and `G_ExportArenaToMap`: logging or file output only.
- `G_Alloc`, `G_Free` and `G_FreeArena`: memory is garbage collected in the model. A freed arena is simply no longer referenced, and use after free is not modelled.
- The room list is a sequence in list order, not allocated nodes, so aliasing through the `next` links is not modelled.
- `ArenaRandFloat`, the texture strings, `totalArea`, `totalBrushes`, `numConnections`, `difficulty`, `entityCount` and `timeElapsed`: unused by the modelled operations, or written only as constants.
- `G_CompileArena`, `G_LoadArena`, `G_ConnectRooms` and `G_ValidateConnectivity`: declared in g_arena_gen.h but without bodies in the source.
- C `int` overflow: all arithmetic is unbounded. Seeds, depths or frame times large enough to overflow `seed + depth`, `depth * 16`, `room->width * room->depth` (g_arena_gen.c:297, in `EnemyQuota`; for a boss room this is (512+32·depth)², which passes 2^31 from about depth 1433) or `20 * msec` in 32 bits are not modelled. The conversion of `seed + depth` to the unsigned PRNG state is modelled modulo 2^32.
- Float positions: positions are exact integers in the model. The C stores them as floats, which are exact for the magnitudes ordinary depths produce but round for huge depths.
- `BG_IsMoving` becomes the boolean input `moving` of the slide and wall-run guards. The speed computation is not modelled.
- The wall-normal length test inside `BG_CanWallRun` (`VectorLength(wallNormal) >= 0.1`, bg_movement.c:380) becomes the boolean input `hasWall`. Vector arithmetic is not modelled.
- `BG_FindWallRunSurface`: a trace into the world, engine callback.
- `PlayerState` holds the player-state fields and the legs-animation fields in one object. The `BG_Do*` functions write the flags through `ps` and the animation through `pm->ps`. The model assumes these are the same record, which is how the engine calls them, and does not model a `pm` whose `ps` differs.
- `BG_ApplyFriction`, and every velocity, view-angle and vector computation in `BG_DoDoubleJump`, `BG_DoDodge`, `BG_DoSlide` and `BG_DoWallRun`: float physics.
- `PM_AddEvent`: engine event queue.
- `PS_JUMPCOUNT` and `PM_BULLETTIME_MIN_ACTIVATE`: defined but not used by the modelled functions.
- code/qcommon/common_compat.c is not part of this model.
