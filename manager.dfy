/** The room registry of backend/network/manager.go: the table of rooms by id
    with the rule that no two rooms share a name, the lookups, the listing the
    lobby shows, and the package-level default configuration new rooms start
    from.  Locks and the room goroutine are not modelled. */
module RoomRegistry {
  import opened Wrappers
  import opened Text
  import opened ConfigValidation
  import GameLogic

  /** What the registry reads of a Room: its id and name, the number of
      connected clients, the phase of its game (None when the room has no game
      loop or game state) and its configuration (None when nil). */
  datatype Room = Room(id: string, name: string, clientCount: nat, phase: Option<int>, config: Option<ConfigData>)

  /** NewRoom: no clients yet, and a game in the Init phase. */
  function NewRoom(id: string, name: string, cfg: ConfigData): (r: Room)
    ensures r.id == id && r.name == name && r.config == Some(cfg)
    ensures r.clientCount == 0 && r.phase.Some?
  {
    Room(id, name, 0, Some(GameLogic.PhaseInit), Some(cfg))
  }

  /** The Rooms table; an entry holding None is a nil *Room. */
  type RoomTable = map<string, Option<Room>>

  /** The ids whose entry is a room (not nil). */
  function LiveIds(rooms: RoomTable): set<string> {
    set id | id in rooms && rooms[id].Some?
  }

  /** Some room of the table is called name. */
  predicate NameTaken(rooms: RoomTable, name: string) {
    exists id | id in rooms :: rooms[id].Some? && rooms[id].value.name == name
  }

  /** Every room sits under its own id, and no two rooms share a name. */
  predicate WellFormed(rooms: RoomTable) {
    (forall id | id in rooms && rooms[id].Some? :: rooms[id].value.id == id) &&
    (forall a, b | a in rooms && b in rooms && rooms[a].Some? && rooms[b].Some? &&
                   rooms[a].value.name == rooms[b].value.name :: a == b)
  }

  /** The id CreateRoom gives a room: "room_" and the clock reading in decimal. */
  function RoomId(clock: int): (s: string)
    ensures |s| > 5 && s[..5] == "room_"
    ensures s[5] == '-' <==> clock < 0
  {
    "room_" + IntToString(clock)
  }

  /** Different clock readings give different room ids. */
  lemma RoomIdInjective(c1: int, c2: int)
    requires RoomId(c1) == RoomId(c2)
    ensures c1 == c2
  {
    assert IntToString(c1) == RoomId(c1)[5..];
    assert IntToString(c2) == RoomId(c2)[5..];
    IntToStringInjective(c1, c2);
  }

  /** Inserting a room under its own id, when its name is free, keeps the
      table well formed; this holds even when the id was already in use, in
      which case the old entry is replaced. */
  lemma InsertKeepsWellFormed(rooms: RoomTable, r: Room)
    requires WellFormed(rooms) && !NameTaken(rooms, r.name)
    ensures WellFormed(rooms[r.id := Some(r)])
    ensures LiveIds(rooms[r.id := Some(r)]) == LiveIds(rooms) + {r.id}
    ensures NameTaken(rooms[r.id := Some(r)], r.name)
  {
    var after := rooms[r.id := Some(r)];
    forall a, b | a in after && b in after && after[a].Some? && after[b].Some? &&
                  after[a].value.name == after[b].value.name
      ensures a == b
    {
      if a != r.id && b != r.id {
        assert rooms[a] == after[a] && rooms[b] == after[b];
      }
    }
  }

  /** A room added under a fresh id grows the table by exactly one room. */
  lemma InsertFreshAddsOne(rooms: RoomTable, r: Room)
    requires r.id !in rooms
    ensures |LiveIds(rooms[r.id := Some(r)])| == |LiveIds(rooms)| + 1
  {
    assert LiveIds(rooms[r.id := Some(r)]) == LiveIds(rooms) + {r.id};
  }

  /** One entry of ListRoomSummaries. */
  datatype RoomSummary = RoomSummary(
    roomId: string, roomName: string, players: int, maxPlayers: int,
    phase: int, mapWidth: int, mapHeight: int)

  /** The summary of one room: phase -1 without a game, zeros without a
      configuration. */
  function Summarize(r: Room): (s: RoomSummary)
    ensures s.roomId == r.id && s.roomName == r.name && s.players == r.clientCount
    ensures s.phase == r.phase.GetOr(-1)
    ensures r.config.None? ==> s.maxPlayers == 0 && s.mapWidth == 0 && s.mapHeight == 0
    ensures r.config.Some? ==> s.maxPlayers == r.config.value.server.maxPlayers &&
                               s.mapWidth == r.config.value.mapSection.width &&
                               s.mapHeight == r.config.value.mapSection.height
  {
    var phase := if r.phase.Some? then r.phase.value else -1;
    match r.config
    case None => RoomSummary(r.id, r.name, r.clientCount, 0, phase, 0, 0)
    case Some(c) => RoomSummary(r.id, r.name, r.clientCount, c.server.maxPlayers, phase,
                                c.mapSection.width, c.mapSection.height)
  }

  /** A room whose game is in one of the five phases is never reported with
      the "no game" phase -1. */
  lemma SummaryPhaseMarksMissingGame(r: Room)
    requires r.phase.None? || GameLogic.PhaseInit <= r.phase.value <= GameLogic.PhaseEnded
    ensures Summarize(r).phase == -1 <==> r.phase.None?
  {
  }

  /** summaries lists the rooms of the table, one entry per room, in the
      order given by the id sequence order. */
  ghost predicate Lists(rooms: RoomTable, order: seq<string>, summaries: seq<RoomSummary>) {
    |order| == |summaries| &&
    (forall i, j | 0 <= i < j < |order| :: order[i] != order[j]) &&
    (forall i | 0 <= i < |order| :: order[i] in rooms && rooms[order[i]].Some? &&
                                    summaries[i] == Summarize(rooms[order[i]].value)) &&
    (forall id | id in LiveIds(rooms) :: id in order)
  }

  /** A listing holds as many entries as the table holds rooms. */
  lemma ListingCountsRooms(rooms: RoomTable, order: seq<string>, summaries: seq<RoomSummary>)
    requires Lists(rooms, order, summaries)
    ensures |summaries| == |LiveIds(rooms)|
  {
    var ids := set i | 0 <= i < |order| :: order[i];
    assert ids == LiveIds(rooms);
    DistinctCard(order);
  }

  /** A sequence without repeats has as many elements as its set. */
  lemma {:induction false} DistinctCard(s: seq<string>)
    requires forall i, j | 0 <= i < j < |s| :: s[i] != s[j]
    ensures |set i | 0 <= i < |s| :: s[i]| == |s|
  {
    if s != [] {
      var t := s[..|s| - 1];
      DistinctCard(t);
      var st := set i | 0 <= i < |t| :: t[i];
      var ss := set i | 0 <= i < |s| :: s[i];
      assert ss == st + {s[|s| - 1]};
      assert s[|s| - 1] !in st;
    }
  }

  /** The package-level defaultConfig / hasDefaultConfig pair.  The default
      is held as a value, so a caller's later edits to its GameConfig cannot
      reach it. */
  class ConfigDefaults {
    var defaultConfig: ConfigData
    var hasDefault: bool

    /** No default is set until SetDefaultConfig is called. */
    ghost predicate Valid()
      reads this
    {
      !hasDefault ==> defaultConfig == ZeroConfig()
    }

    /** The variables' Go zero values. */
    constructor ()
      ensures Valid() && !hasDefault
    {
      defaultConfig := ZeroConfig();
      hasDefault := false;
    }

    /** SetDefaultConfig: nil clears the default; otherwise *cfg is copied. */
    method SetDefaultConfig(cfg: GameConfig?)
      modifies this
      ensures Valid()
      ensures cfg == null ==> !hasDefault && defaultConfig == ZeroConfig()
      ensures cfg != null ==> hasDefault && defaultConfig == cfg.Data()
    {
      if cfg == null {
        hasDefault := false;
        defaultConfig := ZeroConfig();
        return;
      }
      defaultConfig := cfg.Data();
      hasDefault := true;
    }

    /** The configuration a new room starts from. */
    function Current(): ConfigData
      reads this
    {
      if hasDefault then defaultConfig else ZeroConfig()
    }

    /** getDefaultConfigClone: a fresh GameConfig holding the stored default,
        or the zero configuration when none is set. */
    method DefaultConfigClone() returns (c: GameConfig)
      requires Valid()
      ensures fresh(c)
      ensures c.Data() == Current() && c.Data() == defaultConfig
    {
      if hasDefault {
        c := new GameConfig(defaultConfig);
        return;
      }
      c := new GameConfig(ZeroConfig());
    }
  }

  /** RoomManager: the Rooms table. */
  class RoomManager {
    var rooms: RoomTable

    ghost predicate Valid()
      reads this
    {
      WellFormed(rooms)
    }

    /** InitManager: an empty table. */
    constructor ()
      ensures Valid() && rooms == map[]
    {
      rooms := map[];
    }

    /** roomNameTakenLocked: the loop over the table looking for the name. */
    method RoomNameTaken(name: string) returns (taken: bool)
      ensures taken == NameTaken(rooms, name)
    {
      var table := rooms;
      var keys := table.Keys;
      while keys != {}
        invariant keys <= table.Keys
        invariant forall id | id in table && id !in keys ::
          !(table[id].Some? && table[id].value.name == name)
        decreases |keys|
      {
        var id :| id in keys;
        if table[id].Some? && table[id].value.name == name {
          return true;
        }
        keys := keys - {id};
      }
      return false;
    }

    /** CreateRoom: refused for an empty name or a name some room already
        has; otherwise a new room under "room_" + the clock reading. */
    method CreateRoom(name: string, cfg: ConfigData, clock: int) returns (room: Option<Room>, id: string, ok: bool)
      requires Valid()
      modifies this`rooms
      ensures Valid()
      ensures ok <==> name != "" && !NameTaken(old(rooms), name)
      ensures !ok ==> room.None? && id == "" && rooms == old(rooms)
      ensures ok ==> id == RoomId(clock) && room == Some(NewRoom(id, name, cfg)) &&
                     rooms == old(rooms)[id := room] && NameTaken(rooms, name)
    {
      if name == "" {
        return None, "", false;
      }
      var taken := RoomNameTaken(name);
      if taken {
        return None, "", false;
      }
      id := RoomId(clock);
      var r := NewRoom(id, name, cfg);
      InsertKeepsWellFormed(rooms, r);
      rooms := rooms[id := Some(r)];
      room := Some(r);
      ok := true;
    }

    /** GetRoom: the room under id, None for a missing id or a nil entry. */
    function GetRoom(id: string): (r: Option<Room>)
      reads this
      ensures r.Some? <==> id in LiveIds(rooms)
      ensures Valid() && r.Some? ==> r.value.id == id
    {
      if id in rooms then rooms[id] else None
    }

    /** GetRoomByName: the loop returning the first room found with the name. */
    method GetRoomByName(name: string) returns (r: Option<Room>)
      ensures r.None? <==> !NameTaken(rooms, name)
      ensures r.Some? ==> r.value.name == name && exists id | id in rooms :: rooms[id] == r
      ensures Valid() && r.Some? ==>
        forall id | id in rooms && rooms[id].Some? && rooms[id].value.name == name :: rooms[id] == r
    {
      var table := rooms;
      var keys := table.Keys;
      while keys != {}
        invariant keys <= table.Keys
        invariant forall id | id in table && id !in keys ::
          !(table[id].Some? && table[id].value.name == name)
        decreases |keys|
      {
        var id :| id in keys;
        if table[id].Some? && table[id].value.name == name {
          return table[id];
        }
        keys := keys - {id};
      }
      return None;
    }

    /** ListRoomSummaries: one summary per room, nil entries skipped; order
        is the map's iteration order, given here by the ghost result. */
    method ListRoomSummaries() returns (summaries: seq<RoomSummary>, ghost order: seq<string>)
      ensures Lists(rooms, order, summaries)
      ensures |summaries| == |LiveIds(rooms)|
      ensures forall i | 0 <= i < |summaries| ::
                exists id | id in LiveIds(rooms) :: summaries[i] == Summarize(rooms[id].value)
    {
      var table := rooms;
      var keys := table.Keys;
      summaries, order := [], [];
      while keys != {}
        invariant keys <= table.Keys
        invariant |order| == |summaries|
        invariant forall i, j | 0 <= i < j < |order| :: order[i] != order[j]
        invariant forall i | 0 <= i < |order| :: order[i] in table && order[i] !in keys &&
                    table[order[i]].Some? && summaries[i] == Summarize(table[order[i]].value)
        invariant forall id | id in LiveIds(table) && id !in keys :: id in order
        decreases |keys|
      {
        var id :| id in keys;
        if table[id].Some? {
          summaries := summaries + [Summarize(table[id].value)];
          order := order + [id];
        }
        keys := keys - {id};
      }
      ListingCountsRooms(table, order, summaries);
      forall i | 0 <= i < |summaries|
        ensures exists id | id in LiveIds(table) :: summaries[i] == Summarize(table[id].value)
      {
        assert order[i] in LiveIds(table);
      }
    }
  }
}
