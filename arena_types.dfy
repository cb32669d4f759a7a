/** The entities of the arena generator (g_arena_gen.h): room types, themes,
    points, rooms and corridors, the capacity constants, the name lookups
    and room creation. */
module ArenaTypes {
  import opened CInt

  // Capacities of the fixed tables.
  const MAX_ARENA_ROOMS: int := 64
  const MAX_ARENA_CORRIDORS: int := 128
  const MAX_ARENA_ENTITIES: int := 512
  /** Number of player slots of the engine (q_shared.h is not part of this model). */
  const MAX_CLIENTS: int := 64

  const ROOM_TYPE_COUNT: int := 8
  const THEME_COUNT: int := 5

  datatype RoomType =
    | ArenaRoom       // open combat arena
    | CorridorRoom    // long hallway
    | JunctionRoom
    | MultilevelRoom
    | HazardRoom
    | BossRoom
    | StartRoom
    | ExitRoom
  {
    /** The five types a random roll can yield. */
    predicate IsRandomPick() {
      this in {ArenaRoom, CorridorRoom, JunctionRoom, MultilevelRoom, HazardRoom}
    }
  }

  datatype Theme = Tech | Gothic | Space | Hell | RandomTheme {
    /** The enumerator's value in arenaTheme_t; it is also the tier order. */
    function Code(): (c: int)
      ensures 0 <= c < THEME_COUNT
    {
      match this
      case Tech => 0
      case Gothic => 1
      case Space => 2
      case Hell => 3
      case RandomTheme => 4
    }
  }

  /** A world position. The source keeps positions as floats; for
      ordinary depths only integers below 2^24 reach them, so they are
      exact, while huge depths would make the floats round. */
  datatype Vec3 = Vec3(x: int, y: int, z: int)

  const Origin: Vec3 := Vec3(0, 0, 0)

  datatype Room = Room(
    roomType: RoomType,
    origin: Vec3,
    mins: Vec3,
    maxs: Vec3,
    width: int,
    height: int,
    depth: int,
    theme: Theme,
    isBossRoom: bool,
    isStartRoom: bool,
    isExitRoom: bool)

  datatype Corridor = Corridor(roomA: int, roomB: int, start: Vec3, end: Vec3, width: int, theme: Theme)

  datatype Option<T> = None | Some(value: T)

  const THEME_NAMES: seq<string> := ["Tech", "Gothic", "Space", "Hell", "Random"]
  const ROOM_TYPE_NAMES: seq<string> :=
    ["Arena", "Corridor", "Junction", "Multilevel", "Hazard", "Boss", "Start", "Exit"]
  const UNKNOWN_NAME: string := "Unknown"

  /** Name of a theme value; any value outside the enumeration is "Unknown". */
  function ThemeName(theme: int): (name: string)
    ensures name == UNKNOWN_NAME <==> !(0 <= theme < THEME_COUNT)
    ensures 0 <= theme < THEME_COUNT ==> name == THEME_NAMES[theme]
  {
    if theme < 0 || theme >= THEME_COUNT then UNKNOWN_NAME else THEME_NAMES[theme]
  }

  /** Name of a room-type value; any value outside the enumeration is "Unknown". */
  function RoomTypeName(roomType: int): (name: string)
    ensures name == UNKNOWN_NAME <==> !(0 <= roomType < ROOM_TYPE_COUNT)
    ensures 0 <= roomType < ROOM_TYPE_COUNT ==> name == ROOM_TYPE_NAMES[roomType]
  {
    if roomType < 0 || roomType >= ROOM_TYPE_COUNT then UNKNOWN_NAME else ROOM_TYPE_NAMES[roomType]
  }

  /** Distinct enumerators have distinct names, so a name identifies its value. */
  lemma NamesIdentifyValues(a: int, b: int)
    ensures 0 <= a < THEME_COUNT && 0 <= b < THEME_COUNT && ThemeName(a) == ThemeName(b) ==> a == b
    ensures 0 <= a < ROOM_TYPE_COUNT && 0 <= b < ROOM_TYPE_COUNT && RoomTypeName(a) == RoomTypeName(b) ==> a == b
  {
  }

  /** A room of the given type centred at `origin`: its bounding box spans
      half the width and half the depth either side (C division) and the
      full height upwards, only start and exit types raise their role flag,
      and no room is ever flagged as a boss room. */
  function CreateRoom(roomType: RoomType, origin: Vec3, width: int, height: int, depth: int): (room: Room)
    ensures room.roomType == roomType && room.origin == origin
    ensures room.width == width && room.height == height && room.depth == depth
    ensures room.isStartRoom <==> roomType == StartRoom
    ensures room.isExitRoom <==> roomType == ExitRoom
    ensures !room.isBossRoom
    ensures room.theme == Tech
    ensures room.maxs.x - origin.x == origin.x - room.mins.x == CDiv(width, 2)
    ensures room.maxs.y - origin.y == origin.y - room.mins.y == CDiv(depth, 2)
    ensures room.mins.z == origin.z && room.maxs.z == origin.z + height
    ensures width >= 0 && depth >= 0 && height >= 0 ==>
              room.mins.x <= origin.x <= room.maxs.x &&
              room.mins.y <= origin.y <= room.maxs.y &&
              room.mins.z <= origin.z <= room.maxs.z
  {
    Room(roomType, origin,
         Vec3(origin.x - CDiv(width, 2), origin.y - CDiv(depth, 2), origin.z),
         Vec3(origin.x + CDiv(width, 2), origin.y + CDiv(depth, 2), origin.z + height),
         width, height, depth,
         Tech,
         false,
         roomType == StartRoom,
         roomType == ExitRoom)
  }
}
