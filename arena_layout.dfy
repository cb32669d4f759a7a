/** The room and corridor builder of G_GenerateArena, as pure functions
    that mirror its loops draw by draw, and what they guarantee: room
    roles by position, sizes by type, the layout along the x axis, the
    reversed chain and the corridors between neighbouring chain nodes. */
module ArenaLayout {
  import opened CInt
  import opened ArenaTypes
  import opened ArenaRand

  const ROOM_GAP: int := 128
  const BRANCH_OFFSET: int := 256
  const CORRIDOR_WIDTH: int := 128

  /** The number of rooms: 3 + depth + a draw in [0, depth], clamped to
      MAX_ARENA_ROOMS. A non-positive depth draws nothing, so a room
      exists at all only from depth -2 upwards. */
  function RoomCount(depth: int, s: uint32): (d: Draw)
    ensures d.value <= MAX_ARENA_ROOMS
    ensures depth <= 0 ==> d.value == 3 + depth && d.seed == s
    ensures depth > 0 ==> Min(3 + depth, MAX_ARENA_ROOMS) <= d.value <= Min(3 + 2 * depth, MAX_ARENA_ROOMS)
    ensures d.value > 0 ==> depth >= -2
  {
    var r := RandRange(s, 0, depth);
    Draw(Min(3 + depth + r.value, MAX_ARENA_ROOMS), r.seed)
  }

  /** The weighted choice for a room without a fixed role: the bands
      [0,40), [40,60), [60,75), [75,90) and [90,100] in that order. */
  function TypeForRoll(r: int): (t: RoomType)
    ensures t.IsRandomPick()
  {
    if r < 40 then ArenaRoom
    else if r < 60 then CorridorRoom
    else if r < 75 then JunctionRoom
    else if r < 90 then MultilevelRoom
    else HazardRoom
  }

  datatype TypeDraw = TypeDraw(roomType: RoomType, seed: uint32)

  /** What the type chain of the generation loop admits at position `i` of `n`. */
  predicate TypeFitsPosition(t: RoomType, i: int, n: int, depth: int) {
    if i == 0 then t == StartRoom
    else if i == n - 1 then t == ExitRoom
    else if depth % 5 == 0 && i == n - 2 then t == BossRoom  // C's % is zero exactly when Dafny's is
    else t.IsRandomPick()
  }

  /** The type of room `i`: the fixed roles take precedence in the order
      start, exit, boss; only the remaining positions consume a roll. */
  function PickType(i: int, n: int, depth: int, s: uint32): (t: TypeDraw)
    ensures TypeFitsPosition(t.roomType, i, n, depth)
    ensures t.roomType.IsRandomPick() || t.seed == s
  {
    if i == 0 then TypeDraw(StartRoom, s)
    else if i == n - 1 then TypeDraw(ExitRoom, s)
    else if depth % 5 == 0 && i == n - 2 then TypeDraw(BossRoom, s)
    else
      var r := RandRange(s, 0, 100);
      TypeDraw(TypeForRoll(r.value), r.seed)
  }

  datatype Sized = Sized(width: int, height: int, depth: int, seed: uint32)

  /** The size of a room: three draws always happen (width, height, depth
      jitter), then corridors draw once more for their width and take a
      fixed depth, and boss rooms take a fixed square scaled by depth. */
  function RoomSize(t: RoomType, depth: int, s: uint32): (z: Sized)
  {
    var w := RandRange(s, 0, 128);
    var h := RandRange(w.seed, 0, 64);
    var d := RandRange(h.seed, 0, 128);
    if t == CorridorRoom then
      var cw := RandRange(d.seed, 0, 256);
      Sized(512 + cw.value, 256 + h.value, 128, cw.seed)
    else if t == BossRoom then
      Sized(512 + depth * 32, 384, 512 + depth * 32, d.seed)
    else
      Sized(256 + w.value + depth * 16, 256 + h.value, 256 + d.value + depth * 16, d.seed)
  }

  /** The size ranges each room type ends up in. */
  predicate SizeFitsType(t: RoomType, width: int, height: int, roomDepth: int, depth: int) {
    if t == CorridorRoom then
      512 <= width <= 768 && roomDepth == 128 && 256 <= height <= 320
    else if t == BossRoom then
      width == roomDepth == 512 + 32 * depth && height == 384
    else
      256 + 16 * depth <= width <= 384 + 16 * depth &&
      256 + 16 * depth <= roomDepth <= 384 + 16 * depth &&
      256 <= height <= 320
  }

  lemma RoomSizeFits(t: RoomType, depth: int, s: uint32)
    ensures var z := RoomSize(t, depth, s); SizeFitsType(t, z.width, z.height, z.depth, depth)
  {
  }

  datatype RoomStep = RoomStep(room: Room, cursor: Vec3, seed: uint32)

  /** One iteration of the generation loop: pick the type, size the room,
      create it at the cursor with the arena's theme, move the cursor past
      the room and the gap, then draw the branch roll, which can shift the
      cursor sideways only after the first room. */
  function GenRoom(i: int, n: int, depth: int, theme: Theme, cursor: Vec3, s: uint32): RoomStep {
    var t := PickType(i, n, depth, s);
    var z := RoomSize(t.roomType, depth, t.seed);
    var room := CreateRoom(t.roomType, cursor, z.width, z.height, z.depth).(theme := theme);
    var branch := Rand(z.seed);
    var dy := if branch.value % 3 == 0 && i > 0 then RandRange(branch.seed, -BRANCH_OFFSET, BRANCH_OFFSET)
              else Draw(0, branch.seed);
    RoomStep(room, Vec3(cursor.x + z.width + ROOM_GAP, cursor.y + dy.value, cursor.z), dy.seed)
  }

  datatype Rooms = Rooms(rooms: seq<Room>, seed: uint32)

  /** Iterations `i` to `n - 1` of the generation loop, appending to the
      rooms generated so far (generation order). */
  function GenRooms(i: int, n: int, depth: int, theme: Theme, cursor: Vec3, acc: seq<Room>, s: uint32): Rooms
    decreases n - i
  {
    if i >= n then Rooms(acc, s)
    else
      var step := GenRoom(i, n, depth, theme, cursor, s);
      GenRooms(i + 1, n, depth, theme, step.cursor, acc + [step.room], step.seed)
  }

  // ---------------------------------------------------------------------
  // Shape of the generated rooms

  /** Everything one generated room satisfies at position `i` of `n`. */
  ghost predicate RoomOk(room: Room, i: int, n: int, depth: int, theme: Theme) {
    && TypeFitsPosition(room.roomType, i, n, depth)
    && (room.isStartRoom <==> room.roomType == StartRoom)
    && (room.isExitRoom <==> room.roomType == ExitRoom)
    && !room.isBossRoom
    && room.theme == theme
    && room.origin.z == 0
    && SizeFitsType(room.roomType, room.width, room.height, room.depth, depth)
  }

  /** Where the cursor stands after the room generated at position `i`:
      past its width and the gap on x, shifted by at most the branch
      offset on y (never after the first room), on the same z. */
  ghost predicate CursorAfter(room: Room, cursor: Vec3, i: int) {
    && cursor.x == room.origin.x + room.width + ROOM_GAP
    && -BRANCH_OFFSET <= cursor.y - room.origin.y <= BRANCH_OFFSET
    && (i == 0 ==> cursor.y == room.origin.y)
    && cursor.z == room.origin.z
  }

  ghost predicate RoomsOk(rooms: seq<Room>, n: int, depth: int, theme: Theme) {
    && (|rooms| > 0 ==> rooms[0].origin == Origin)
    && (forall j :: 0 <= j < |rooms| ==> RoomOk(rooms[j], j, n, depth, theme))
    && (forall j :: 0 < j < |rooms| ==> CursorAfter(rooms[j - 1], rooms[j].origin, j - 1))
  }

  /** One loop iteration yields a room that fits its position, placed at
      the cursor, and the cursor that follows it. */
  lemma GenRoomOk(i: int, n: int, depth: int, theme: Theme, cursor: Vec3, s: uint32)
    requires cursor.z == 0
    ensures var step := GenRoom(i, n, depth, theme, cursor, s);
      && RoomOk(step.room, i, n, depth, theme)
      && step.room.origin == cursor
      && CursorAfter(step.room, step.cursor, i)
  {
    var t := PickType(i, n, depth, s);
    RoomSizeFits(t.roomType, depth, t.seed);
  }

  /** The generation loop yields max(n, 0) rooms that all fit their
      positions, the first at the world origin, each one after the
      previous along the cursor. */
  lemma {:induction false} GenRoomsOk(i: int, n: int, depth: int, theme: Theme, cursor: Vec3, acc: seq<Room>, s: uint32)
    requires 0 <= i && |acc| == i
    requires RoomsOk(acc, n, depth, theme)
    requires cursor.z == 0
    requires i == 0 ==> cursor == Origin
    requires i > 0 ==> CursorAfter(acc[i - 1], cursor, i - 1)
    ensures var r := GenRooms(i, n, depth, theme, cursor, acc, s);
      |r.rooms| == Max(i, n) && r.rooms[..i] == acc && RoomsOk(r.rooms, n, depth, theme)
    decreases n - i
  {
    if i < n {
      var step := GenRoom(i, n, depth, theme, cursor, s);
      GenRoomOk(i, n, depth, theme, cursor, s);
      var acc' := acc + [step.room];
      assert RoomsOk(acc', n, depth, theme) by {
        forall j | 0 < j < |acc'|
          ensures CursorAfter(acc'[j - 1], acc'[j].origin, j - 1)
        {
          if j < i {
            assert acc'[j - 1] == acc[j - 1] && acc'[j] == acc[j];
          }
        }
      }
      GenRoomsOk(i + 1, n, depth, theme, step.cursor, acc', step.seed);
      var r := GenRooms(i + 1, n, depth, theme, step.cursor, acc', step.seed);
      assert r.rooms[..i] == r.rooms[..i + 1][..i];
    }
  }

  /** Roles of the generated rooms: exactly the first is a start room,
      exactly the last is an exit room once there are two or more, a boss
      room stands second to last exactly when depth is a multiple of 5
      and there are at least three rooms, and no room has the boss flag. */
  lemma RoomRoles(rooms: seq<Room>, depth: int, theme: Theme)
    requires RoomsOk(rooms, |rooms|, depth, theme)
    ensures forall j :: 0 <= j < |rooms| ==> (rooms[j].isStartRoom <==> j == 0)
    ensures forall j :: 0 <= j < |rooms| ==> (rooms[j].isExitRoom <==> j == |rooms| - 1 && |rooms| >= 2)
    ensures forall j :: 0 <= j < |rooms| ==>
              (rooms[j].roomType == BossRoom <==> j == |rooms| - 2 && depth % 5 == 0 && |rooms| >= 3)
    ensures forall j :: 0 <= j < |rooms| ==> !rooms[j].isBossRoom
  {
  }

  /** The x coordinate the cursor has reached after the given rooms:
      their widths plus one gap each. */
  function SpanX(rooms: seq<Room>): int {
    if rooms == [] then 0 else SpanX(rooms[..|rooms| - 1]) + rooms[|rooms| - 1].width + ROOM_GAP
  }

  /** Room k sits at the total span of the rooms before it, so with
      positive widths every room lies strictly further along x than all
      earlier ones and no two rooms share an origin. */
  lemma {:induction false} RoomsAlongX(rooms: seq<Room>, n: int, depth: int, theme: Theme, k: int)
    requires RoomsOk(rooms, n, depth, theme)
    requires 0 <= k < |rooms|
    ensures rooms[k].origin.x == SpanX(rooms[..k])
    ensures (forall j :: 0 <= j < |rooms| ==> rooms[j].width > 0) ==>
              forall j :: 0 <= j < k ==> rooms[j].origin.x < rooms[k].origin.x
  {
    if k > 0 {
      RoomsAlongX(rooms, n, depth, theme, k - 1);
      assert rooms[..k][..k - 1] == rooms[..k - 1];
    }
  }

  // ---------------------------------------------------------------------
  // The stored chain and the corridors

  /** The chain as linked by the generation loop: each new room points to
      the previous one, so the head is the last generated room. */
  function Reverse<T>(s: seq<T>): (r: seq<T>)
    ensures |r| == |s|
  {
    if s == [] then [] else [s[|s| - 1]] + Reverse(s[..|s| - 1])
  }

  lemma {:induction false} ReverseAt<T>(s: seq<T>, k: int)
    requires 0 <= k < |s|
    ensures Reverse(s)[k] == s[|s| - 1 - k]
  {
    if k > 0 {
      ReverseAt(s[..|s| - 1], k - 1);
    }
  }

  /** Node k of the reversed sequence is element |s| - 1 - k, for every k. */
  lemma ReverseAll<T>(s: seq<T>)
    ensures forall k :: 0 <= k < |s| ==> Reverse(s)[k] == s[|s| - 1 - k]
  {
    forall k | 0 <= k < |s| ensures Reverse(s)[k] == s[|s| - 1 - k] {
      ReverseAt(s, k);
    }
  }

  /** The corridor table built by walking the chain: one corridor per pair
      of neighbouring chain nodes, numbered by the walk. */
  function Corridors(chain: seq<Room>, theme: Theme): seq<Corridor> {
    seq(Max(|chain| - 1, 0), k requires 0 <= k < |chain| - 1 =>
      Corridor(k, k + 1, chain[k].origin, chain[k + 1].origin, CORRIDOR_WIDTH, theme))
  }

  /** Over the chain of generated rooms there are max(n - 1, 0) corridors;
      corridor k joins chain nodes k and k + 1 only, which are the rooms
      generated at positions n - 1 - k and n - 2 - k, runs between their
      origins, is 128 wide and carries the arena's theme. */
  lemma CorridorsJoinNeighbours(rooms: seq<Room>, theme: Theme)
    ensures var cs := Corridors(Reverse(rooms), theme);
      && |cs| == Max(|rooms| - 1, 0)
      && forall k :: 0 <= k < |cs| ==>
           && cs[k].roomA == k && cs[k].roomB == k + 1
           && cs[k].start == rooms[|rooms| - 1 - k].origin
           && cs[k].end == rooms[|rooms| - 2 - k].origin
           && cs[k].width == CORRIDOR_WIDTH && cs[k].theme == theme
  {
    var cs := Corridors(Reverse(rooms), theme);
    forall k | 0 <= k < |cs|
      ensures cs[k].start == rooms[|rooms| - 1 - k].origin && cs[k].end == rooms[|rooms| - 2 - k].origin
    {
      ReverseAt(rooms, k);
      ReverseAt(rooms, k + 1);
    }
  }

  /** Along the generated layout each corridor runs back along x by the
      width of the earlier room plus the gap, and moves sideways by at
      most the branch offset. */
  lemma CorridorSpan(rooms: seq<Room>, n: int, depth: int, theme: Theme)
    requires RoomsOk(rooms, n, depth, theme)
    ensures var cs := Corridors(Reverse(rooms), theme);
      forall k :: 0 <= k < |cs| ==>
        && cs[k].start.x == cs[k].end.x + rooms[|rooms| - 2 - k].width + ROOM_GAP
        && -BRANCH_OFFSET <= cs[k].start.y - cs[k].end.y <= BRANCH_OFFSET
        && cs[k].start.z == cs[k].end.z == 0
  {
    CorridorsJoinNeighbours(rooms, theme);
    var cs := Corridors(Reverse(rooms), theme);
    forall k | 0 <= k < |cs|
      ensures cs[k].start.x == cs[k].end.x + rooms[|rooms| - 2 - k].width + ROOM_GAP
    {
      var j := |rooms| - 1 - k;
      assert CursorAfter(rooms[j - 1], rooms[j].origin, j - 1);
    }
  }
}
