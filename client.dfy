/** One websocket client of the server (backend/network/client.go): the
    decoding and dispatch of each inbound frame in readPump, and the
    create-room, join-room and list-rooms handlers.  What the client pushes to
    its Send channel, to a room's Register / Unregister channels and to the
    game loop's input channel is recorded, in order, in one output sequence. */
module ClientSession {
  import opened Wrappers
  import opened Geometry
  import opened Text
  import opened JsonValues
  import opened ConfigValidation
  import opened RoomRegistry

  // ---------------------------------------------------------------------------
  // Inputs and outputs

  /** A frame read from the socket: text that json.Unmarshal rejects, or a
      JSON value. */
  datatype Frame = Garbled | Text(value: Json)

  datatype InputKind =
    | InputLogin | InputMove | InputUseItem | InputInteract | InputPickup | InputDrop
    | InputTactic | InputBuy | InputSell | InputShopRefresh | InputDevSkip

  /** logic.PlayerInput, with the fields the dispatcher fills in. */
  datatype PlayerInput = PlayerInput(
    kind: InputKind, sessionId: string, name: string, dir: Vec2, lookDir: Vec2,
    hasLookDir: bool, slotIndex: int, tactic: string, itemId: string)

  /** A message the server sends the client. */
  datatype ServerMsg =
    | ErrorMsg(text: string)                                               // 4001
    | RoomJoined(roomId: string, roomName: string, config: Option<ConfigData>) // 1012
    | RoomsList(rooms: seq<RoomSummary>)                                   // 1014

  /** Everything the client hands on, in order. */
  datatype Outbound =
    | Send(msg: ServerMsg)
    | RegisterWith(roomId: string)
    | UnregisterFrom(roomId: string)
    | Input(roomId: string, input: PlayerInput)

  const CreateNoNameMsg: string := "创建房间失败：必须填写房间名。"
  const CreateNameTakenMsg: string := "创建房间失败：房间名已存在，请重新命名。"
  const JoinNoIdMsg: string := "加入房间失败：缺少 room_id。"
  const JoinNoRoomMsg: string := "加入房间失败：房间不存在或已关闭。"

  // ---------------------------------------------------------------------------
  // Decoding

  /** json.Unmarshal into map[string]interface{}: an object gives its
      members, null gives the nil map, anything else is an error. */
  function Request(f: Frame): (r: Option<map<string, Json>>)
    ensures r.Some? <==> f.Text? && (f.value.JObj? || f.value.JNull?)
    ensures r.Some? && f.value.JObj? ==> r.value == f.value.fields
    ensures r.Some? && f.value.JNull? ==> r.value == map[]
  {
    match f
    case Garbled => None
    case Text(JObj(m)) => Some(m)
    case Text(JNull) => Some(map[])
    case Text(_) => None
  }

  /** req["type"].(float64), converted to int by truncation. */
  function TypeCode(req: map<string, Json>): (c: Option<int>)
    ensures c.Some? <==> "type" in req && req["type"].JNum?
    ensures c.Some? && req["type"].n == req["type"].n.Floor as real ==> c.value == req["type"].n.Floor
  {
    var t := NumberField(req, "type");
    if t.Some? then
      assert t.value == t.value.Floor as real ==> Trunc(t.value) == t.value.Floor by {
        if t.value == t.value.Floor as real && t.value < 0.0 {
          assert (-t.value).Floor == -t.value.Floor;
        }
      }
      Some(Trunc(t.value))
    else None
  }

  /** What readPump does with a frame. */
  datatype Dispatch =
    | Skip
    | CreateRoom(payload: Option<map<string, Json>>)
    | JoinRoom(payload: Option<map<string, Json>>)
    | ListRooms
    | Game(code: int, req: map<string, Json>)

  /** The dispatch of readPump: undecodable frames and frames without a
      numeric type are skipped; 1010, 1011 and 1013 are the room packets. */
  function Classify(f: Frame): (d: Dispatch)
    ensures d.Skip? <==> Request(f).None? || TypeCode(Request(f).value).None?
    ensures d.CreateRoom? <==> Request(f).Some? && TypeCode(Request(f).value) == Some(1010)
    ensures d.JoinRoom? <==> Request(f).Some? && TypeCode(Request(f).value) == Some(1011)
    ensures d.ListRooms? <==> Request(f).Some? && TypeCode(Request(f).value) == Some(1013)
    ensures d.Game? ==> d.code !in {1010, 1011, 1013} && Request(f) == Some(d.req) &&
                        TypeCode(d.req) == Some(d.code)
  {
    var req := Request(f);
    if req.None? then Skip
    else
      var code := TypeCode(req.value);
      if code.None? then Skip
      else if code.value == 1010 then CreateRoom(ObjectField(req.value, "payload"))
      else if code.value == 1011 then JoinRoom(ObjectField(req.value, "payload"))
      else if code.value == 1013 then ListRooms
      else Game(code.value, req.value)
  }

  /** The result of decoding a game packet. */
  datatype GameDecode = Forward(input: PlayerInput) | Ignore | Panic

  function Blank(sid: string, kind: InputKind): PlayerInput {
    PlayerInput(kind, sid, "", Vec2(0.0, 0.0), Vec2(0.0, 0.0), false, 0, "", "")
  }

  /** The optional look_dir of a move: used only when both x and y are numbers. */
  function WithLook(input: PlayerInput, payload: map<string, Json>): (r: PlayerInput)
    requires !input.hasLookDir
    ensures r.hasLookDir <==>
      (var look := ObjectField(payload, "look_dir");
       look.Some? && NumberField(look.value, "x").Some? && NumberField(look.value, "y").Some?)
    ensures !r.hasLookDir ==> r == input
  {
    var look := ObjectField(payload, "look_dir");
    if look.None? then input
    else
      var lx, ly := NumberField(look.value, "x"), NumberField(look.value, "y");
      if lx.Some? && ly.Some? then input.(lookDir := Vec2(lx.value, ly.value), hasLookDir := true)
      else input
  }

  /** The move packet as written: dir["x"] and dir["y"] are asserted to be
      numbers without the comma-ok form, so a dir object lacking either (or
      holding a non-number) panics. */
  function MoveAsWritten(payload: map<string, Json>, sid: string): (d: GameDecode)
    ensures d.Panic? <==>
      (ObjectField(payload, "dir").Some? &&
       (NumberField(ObjectField(payload, "dir").value, "x").None? ||
        NumberField(ObjectField(payload, "dir").value, "y").None?))
    ensures !d.Panic? ==> d == Move(payload, sid)
  {
    var dir := ObjectField(payload, "dir");
    if dir.None? then Ignore
    else
      var x, y := NumberField(dir.value, "x"), NumberField(dir.value, "y");
      if x.None? || y.None? then Panic
      else Forward(WithLook(Blank(sid, InputMove).(dir := Vec2(x.value, y.value)), payload))
  }

  /** The move packet as evidently intended: like look_dir, a dir without
      numeric x and y is ignored. */
  function Move(payload: map<string, Json>, sid: string): (d: GameDecode)
    ensures !d.Panic?
    ensures d.Forward? <==>
      (ObjectField(payload, "dir").Some? &&
       NumberField(ObjectField(payload, "dir").value, "x").Some? &&
       NumberField(ObjectField(payload, "dir").value, "y").Some?)
    ensures d.Forward? ==>
      (d.input.kind == InputMove &&
       d.input.dir == Vec2(NumberField(ObjectField(payload, "dir").value, "x").value,
                           NumberField(ObjectField(payload, "dir").value, "y").value))
  {
    var dir := ObjectField(payload, "dir");
    if dir.None? then Ignore
    else
      var x, y := NumberField(dir.value, "x"), NumberField(dir.value, "y");
      if x.None? || y.None? then Ignore
      else Forward(WithLook(Blank(sid, InputMove).(dir := Vec2(x.value, y.value)), payload))
  }

  /** A packet carrying payload["slot_index"] as a number, truncated to int. */
  function SlotPacket(req: map<string, Json>, sid: string, kind: InputKind): (d: GameDecode)
    ensures d.Forward? <==>
      ObjectField(req, "payload").Some? && NumberField(ObjectField(req, "payload").value, "slot_index").Some?
    ensures d.Forward? ==>
      d.input == Blank(sid, kind).(slotIndex := Trunc(NumberField(ObjectField(req, "payload").value, "slot_index").value))
  {
    var payload := ObjectField(req, "payload");
    if payload.None? then Ignore
    else
      var slot := NumberField(payload.value, "slot_index");
      if slot.None? then Ignore else Forward(Blank(sid, kind).(slotIndex := Trunc(slot.value)))
  }

  /** The switch of readPump over the game packets other than the move. */
  function OtherPacket(code: int, req: map<string, Json>, sid: string): (d: GameDecode)
    ensures !d.Panic?
    ensures d.Forward? ==> d.input.sessionId == sid
    ensures code !in {1001, 2002, 2003, 2004, 2005, 2006, 2007, 2008, 2009, 9001} ==> d.Ignore?
  {
    var payload := ObjectField(req, "payload");
    if code == 1001 then
      if payload.Some? && StringField(payload.value, "name").Some?
      then Forward(Blank(sid, InputLogin).(name := StringField(payload.value, "name").value))
      else Ignore
    else if code == 2002 then SlotPacket(req, sid, InputUseItem)
    else if code == 2003 then Forward(Blank(sid, InputInteract))
    else if code == 2004 then Forward(Blank(sid, InputPickup))
    else if code == 2005 then SlotPacket(req, sid, InputDrop)
    else if code == 2006 then
      if payload.Some? && StringField(payload.value, "tactic").Some?
      then Forward(Blank(sid, InputTactic).(tactic := StringField(payload.value, "tactic").value))
      else Ignore
    else if code == 2007 then
      if payload.Some? && StringField(payload.value, "item_id").Some?
      then Forward(Blank(sid, InputBuy).(itemId := StringField(payload.value, "item_id").value))
      else Ignore
    else if code == 2008 then SlotPacket(req, sid, InputSell)
    else if code == 2009 then Forward(Blank(sid, InputShopRefresh))
    else if code == 9001 then Forward(Blank(sid, InputDevSkip))
    else Ignore
  }

  /** The game-packet decoding of readPump as written. */
  function DecodeGameAsWritten(code: int, req: map<string, Json>, sid: string): (d: GameDecode)
    ensures d.Panic? ==> code == 2001
    ensures d.Forward? ==> d.input.sessionId == sid
  {
    if code == 2001 then
      var payload := ObjectField(req, "payload");
      if payload.None? then Ignore else MoveAsWritten(payload.value, sid)
    else OtherPacket(code, req, sid)
  }

  /** The game-packet decoding with the move packet checked. */
  function DecodeGame(code: int, req: map<string, Json>, sid: string): (d: GameDecode)
    ensures !d.Panic?
    ensures d.Forward? ==> d.input.sessionId == sid
  {
    if code == 2001 then
      var payload := ObjectField(req, "payload");
      if payload.None? then Ignore else Move(payload.value, sid)
    else OtherPacket(code, req, sid)
  }

  /** Wherever the code as written does not panic, the checked decoding does
      exactly the same. */
  lemma DecodeGameRefinesAsWritten(code: int, req: map<string, Json>, sid: string)
    requires !DecodeGameAsWritten(code, req, sid).Panic?
    ensures DecodeGame(code, req, sid) == DecodeGameAsWritten(code, req, sid)
  {
  }

  /** The discrepancy: a move whose dir object lacks "x" makes the code as
      written panic, which ends the server process. */
  lemma MoveWithoutXPanics()
    ensures var req := map["type" := JNum(2001.0), "payload" := JObj(map["dir" := JObj(map["y" := JNum(1.0)])])];
      DecodeGameAsWritten(2001, req, "u_1") == Panic && DecodeGame(2001, req, "u_1") == Ignore
  {
    var req := map["type" := JNum(2001.0), "payload" := JObj(map["dir" := JObj(map["y" := JNum(1.0)])])];
    assert ObjectField(req, "payload").Some?;
  }

  /** A move forwards look_dir only when it holds both numeric coordinates. */
  lemma MoveLookDirNeedsBoth(payload: map<string, Json>, sid: string)
    requires Move(payload, sid).Forward?
    ensures var look := ObjectField(payload, "look_dir");
      Move(payload, sid).input.hasLookDir <==>
        look.Some? && NumberField(look.value, "x").Some? && NumberField(look.value, "y").Some?
  {
  }

  // ---------------------------------------------------------------------------
  // The room handlers as steps

  /** The new room, the new table and the outputs of one handler call. */
  datatype Step = Step(room: Option<Room>, rooms: RoomTable, out: seq<Outbound>)

  /** payload["room_name"].(string), or "" (also for a nil payload). */
  function RoomNameOf(payload: Option<map<string, Json>>): string {
    if payload.Some? then StringField(payload.value, "room_name").GetOr("") else ""
  }

  function RoomIdOf(payload: Option<map<string, Json>>): string {
    if payload.Some? then StringField(payload.value, "room_id").GetOr("") else ""
  }

  /** The configuration handleCreateRoom asks for before clamping: the
      default, the legacy flat overrides (truncated to int), then the nested
      "config" overlay, which json.Unmarshal applies and which is given as a
      function here. */
  function RequestedConfig(base: ConfigData, payload: Option<map<string, Json>>,
                           overlay: (ConfigData, map<string, Json>) -> ConfigData): (c: ConfigData)
    ensures payload.None? ==> c == base
    ensures payload.Some? && ObjectField(payload.value, "config").None? ==>
              c.(server := base.server, phases := base.phases) == base &&
              c.server.(maxPlayers := base.server.maxPlayers) == base.server
    ensures payload.Some? && ObjectField(payload.value, "config").None? &&
            NumberField(payload.value, "max_players").Some? ==>
              c.server.maxPlayers == Trunc(NumberField(payload.value, "max_players").value)
  {
    if payload.None? then base
    else
      var p := payload.value;
      var mp, p1, p2, m := NumberField(p, "max_players"), NumberField(p, "phase1_dur"),
                           NumberField(p, "phase2_dur"), NumberField(p, "motors");
      var c1 := if mp.Some? then base.(server := base.server.(maxPlayers := Trunc(mp.value))) else base;
      var c2 := if p1.Some? then c1.(phases := c1.phases.(phase1 := c1.phases.phase1.(duration := Trunc(p1.value)))) else c1;
      var c3 := if p2.Some? then c2.(phases := c2.phases.(phase2 := c2.phases.phase2.(duration := Trunc(p2.value)))) else c2;
      var c4 := if m.Some? then c3.(phases := c3.phases.(phase2 := c3.phases.phase2.(motorsSpawnCount := Trunc(m.value)))) else c3;
      var raw := ObjectField(p, "config");
      if raw.Some? then overlay(c4, raw.value) else c4
  }

  /** handleCreateRoom once the trimmed name is known to be non-empty and the
      configuration has been clamped: the manager refuses a taken name. */
  function Created(rooms: RoomTable, name: string, cfg: ConfigData, clock: int): (s: Step)
    ensures Addressed(s.out, 0, s.room) && NoUnregister(s.out, 0)
  {
    if NameTaken(rooms, name) then Step(None, rooms, [Send(ErrorMsg(CreateNameTakenMsg))])
    else
      var id := RoomId(clock);
      var r := NewRoom(id, name, cfg);
      Step(Some(r), rooms[id := Some(r)], [RegisterWith(id), Send(RoomJoined(id, name, Some(cfg)))])
  }

  /** The configuration handleCreateRoom hands to the manager: the requested
      one, clamped (the second ClampGameConfig call changes nothing, see
      Client.BuildConfig). */
  function BuiltConfig(base: ConfigData, payload: Option<map<string, Json>>,
                       overlay: (ConfigData, map<string, Json>) -> ConfigData): ConfigData
  {
    ClampConfig(RequestedConfig(base, payload, overlay))
  }

  /** Every bound holds for the configuration of a new room, and a request
      already within the bounds is granted unchanged. */
  lemma BuiltConfigSpec(base: ConfigData, payload: Option<map<string, Json>>,
                        overlay: (ConfigData, map<string, Json>) -> ConfigData)
    ensures InRange(BuiltConfig(base, payload, overlay))
    ensures InRange(RequestedConfig(base, payload, overlay)) ==>
              BuiltConfig(base, payload, overlay) == RequestedConfig(base, payload, overlay)
  {
    var req := RequestedConfig(base, payload, overlay);
    ClampConfigInRange(req);
    if InRange(req) {
      ClampConfigKeepsValid(req);
    }
  }

  /** handleCreateRoom for a client in `room`, against table `rooms`, once
      the configuration `cfg` is built, at clock reading `clock`. */
  function CreateStep(room: Option<Room>, rooms: RoomTable, payload: Option<map<string, Json>>,
                      cfg: ConfigData, clock: int): (s: Step)
    ensures room.Some? ==> s == Step(room, rooms, [])
  {
    if room.Some? then Step(room, rooms, [])
    else
      var name := TrimSpace(RoomNameOf(payload));
      if name == "" then Step(None, rooms, [Send(ErrorMsg(CreateNoNameMsg))])
      else Created(rooms, name, cfg, clock)
  }

  /** What handleCreateRoom guarantees: nothing happens inside a room; an
      empty trimmed name or a taken name is answered with a 4001 error and
      creates nothing; otherwise the client is in a new room with the trimmed
      name and the built configuration, registered and told so, and room
      names stay unique. */
  lemma CreateStepSpec(room: Option<Room>, rooms: RoomTable, payload: Option<map<string, Json>>,
                       cfg: ConfigData, clock: int)
    requires WellFormed(rooms)
    ensures var s := CreateStep(room, rooms, payload, cfg, clock);
      var name := TrimSpace(RoomNameOf(payload));
      WellFormed(s.rooms) &&
      (room.None? && name == "" ==>
         s.room.None? && s.rooms == rooms && s.out == [Send(ErrorMsg(CreateNoNameMsg))]) &&
      (room.None? && name != "" && NameTaken(rooms, name) ==>
         s.room.None? && s.rooms == rooms && s.out == [Send(ErrorMsg(CreateNameTakenMsg))]) &&
      (room.None? && name != "" && !NameTaken(rooms, name) ==>
         s.room == Some(NewRoom(RoomId(clock), name, cfg)) &&
         s.rooms == rooms[RoomId(clock) := s.room] && NameTaken(s.rooms, name) &&
         s.out == [RegisterWith(RoomId(clock)), Send(RoomJoined(RoomId(clock), name, Some(cfg)))])
  {
    if room.None? {
      var name := TrimSpace(RoomNameOf(payload));
      if name != "" {
        CreatedSpec(rooms, name, cfg, clock);
      }
    }
  }

  /** The manager's part of a creation: a taken name is refused, a free one
      gets a new room under the id made from the clock reading. */
  lemma CreatedSpec(rooms: RoomTable, name: string, cfg: ConfigData, clock: int)
    requires WellFormed(rooms)
    ensures var s := Created(rooms, name, cfg, clock);
      WellFormed(s.rooms) &&
      (NameTaken(rooms, name) ==> s == Step(None, rooms, [Send(ErrorMsg(CreateNameTakenMsg))])) &&
      (!NameTaken(rooms, name) ==>
         s.room == Some(NewRoom(RoomId(clock), name, cfg)) && s.rooms == rooms[RoomId(clock) := s.room] &&
         NameTaken(s.rooms, name) &&
         s.out == [RegisterWith(RoomId(clock)), Send(RoomJoined(RoomId(clock), name, Some(cfg)))])
  {
    if !NameTaken(rooms, name) {
      InsertKeepsWellFormed(rooms, NewRoom(RoomId(clock), name, cfg));
    }
  }

  /** handleJoinRoom for a client in `room`. */
  function JoinStep(room: Option<Room>, rooms: RoomTable, payload: Option<map<string, Json>>): (s: Step)
    ensures room.Some? ==> s == Step(room, rooms, [])
    ensures s.rooms == rooms
  {
    if room.Some? then Step(room, rooms, [])
    else
      var id := TrimSpace(RoomIdOf(payload));
      if id == "" then Step(None, rooms, [Send(ErrorMsg(JoinNoIdMsg))])
      else if id in rooms && rooms[id].Some? then
        var r := rooms[id].value;
        Step(Some(r), rooms, [RegisterWith(r.id), Send(RoomJoined(r.id, r.name, r.config))])
      else Step(None, rooms, [Send(ErrorMsg(JoinNoRoomMsg))])
  }

  /** What handleJoinRoom guarantees: the table never changes; inside a room
      nothing happens; an empty trimmed id or an unknown one gets a 4001
      error and leaves the client outside; a known one puts the client in
      that very room. */
  lemma JoinStepSpec(room: Option<Room>, rooms: RoomTable, payload: Option<map<string, Json>>)
    requires WellFormed(rooms)
    ensures var s := JoinStep(room, rooms, payload);
      var id := TrimSpace(RoomIdOf(payload));
      (room.None? && (id == "" || id !in LiveIds(rooms)) ==>
         s.room.None? && |s.out| == 1 && s.out[0].Send? && s.out[0].msg.ErrorMsg?) &&
      (room.None? && id != "" && id in LiveIds(rooms) ==>
         s.room == rooms[id] && s.room.value.id == id && |s.out| == 2 &&
         s.out[0] == RegisterWith(id) && s.out[1].Send? && s.out[1].msg.RoomJoined?)
  {
  }

  // ---------------------------------------------------------------------------
  // The client

  /** Every registration and forwarded input from position `from` on goes to `room`. */
  ghost predicate Addressed(out: seq<Outbound>, from: nat, room: Option<Room>) {
    forall k | from <= k < |out| :: (out[k].Input? || out[k].RegisterWith?) ==>
      room.Some? && out[k].roomId == room.value.id
  }

  ghost predicate NoUnregister(out: seq<Outbound>, from: nat) {
    forall k | from <= k < |out| :: !out[k].UnregisterFrom?
  }

  /** A join registers the client only with the room it enters. */
  lemma JoinStepAddressed(room: Option<Room>, rooms: RoomTable, payload: Option<map<string, Json>>)
    ensures var s := JoinStep(room, rooms, payload);
      Addressed(s.out, 0, s.room) && NoUnregister(s.out, 0)
  {
    var s := JoinStep(room, rooms, payload);
    if room.None? && s.room.Some? {
      assert s.out == [RegisterWith(s.room.value.id), Send(RoomJoined(s.room.value.id, s.room.value.name, s.room.value.config))];
    }
  }

  /** A creation registers the client only with the room it creates. */
  lemma CreateStepAddressed(room: Option<Room>, rooms: RoomTable, payload: Option<map<string, Json>>,
                            cfg: ConfigData, clock: int)
    ensures var s := CreateStep(room, rooms, payload, cfg, clock);
      Addressed(s.out, 0, s.room) && NoUnregister(s.out, 0)
  {
  }

  /** A step's outputs, appended to earlier ones, are addressed as the step leaves the room. */
  lemma AddressedAppend(prefix: seq<Outbound>, s: Step)
    requires Addressed(s.out, 0, s.room) && NoUnregister(s.out, 0)
    ensures Addressed(prefix + s.out, |prefix|, s.room) && NoUnregister(prefix + s.out, |prefix|)
  {
    forall k | |prefix| <= k < |prefix + s.out|
      ensures (prefix + s.out)[k] == s.out[k - |prefix|]
    {
    }
  }

  /** Outputs addressed correctly stay so when more correctly addressed
      outputs follow and the room is only ever entered, never changed. */
  lemma AddressedExtends(before: seq<Outbound>, after: seq<Outbound>, from: nat,
                         room: Option<Room>, room': Option<Room>)
    requires |before| <= |after| && after[..|before|] == before
    requires Addressed(before, from, room) && Addressed(after, |before|, room')
    requires NoUnregister(before, from) && NoUnregister(after, |before|)
    requires room.Some? ==> room' == room
    ensures Addressed(after, from, room') && NoUnregister(after, from)
  {
    forall k | from <= k < |before|
      ensures after[k] == before[k]
    {
      assert after[k] == after[..|before|][k];
    }
  }

  class Client {
    const sessionId: string
    var currentRoom: Option<Room>
    var outbox: seq<Outbound>

    /** ServeWs: a new client with no room yet. */
    constructor (sid: string)
      ensures sessionId == sid && currentRoom.None? && outbox == []
    {
      sessionId := sid;
      currentRoom := None;
      outbox := [];
    }

    /** The overrides of handleCreateRoom, written into the fresh config in place. */
    static method ApplyOverrides(cfg: GameConfig, payload: Option<map<string, Json>>,
                                 overlay: (ConfigData, map<string, Json>) -> ConfigData)
      modifies cfg
      ensures cfg.Data() == RequestedConfig(old(cfg.Data()), payload, overlay)
    {
      if payload.None? {
        return;
      }
      var p := payload.value;
      var mp := NumberField(p, "max_players");
      if mp.Some? {
        cfg.server := cfg.server.(maxPlayers := Trunc(mp.value));
      }
      var p1 := NumberField(p, "phase1_dur");
      if p1.Some? {
        cfg.phases := cfg.phases.(phase1 := cfg.phases.phase1.(duration := Trunc(p1.value)));
      }
      var p2 := NumberField(p, "phase2_dur");
      if p2.Some? {
        cfg.phases := cfg.phases.(phase2 := cfg.phases.phase2.(duration := Trunc(p2.value)));
      }
      var m := NumberField(p, "motors");
      if m.Some? {
        cfg.phases := cfg.phases.(phase2 := cfg.phases.phase2.(motorsSpawnCount := Trunc(m.value)));
      }
      var raw := ObjectField(p, "config");
      if raw.Some? {
        var d := overlay(cfg.Data(), raw.value);
        cfg.server, cfg.mapSection, cfg.gameplay, cfg.items := d.server, d.mapSection, d.gameplay, d.items;
        cfg.tactics, cfg.combat, cfg.phases := d.tactics, d.combat, d.phases;
      }
    }

    /** The configuration of a room being created: a copy of the default,
        the overrides written into it, then ClampGameConfig twice. */
    static method BuildConfig(payload: Option<map<string, Json>>, defaults: ConfigDefaults,
                              overlay: (ConfigData, map<string, Json>) -> ConfigData) returns (c: ConfigData)
      requires defaults.Valid()
      ensures c == BuiltConfig(defaults.Current(), payload, overlay)
    {
      var cfg := defaults.DefaultConfigClone();
      ApplyOverrides(cfg, payload, overlay);
      ghost var req := cfg.Data();
      ClampGameConfig(cfg);
      ClampGameConfig(cfg);
      c := cfg.Data();
      ClampConfigIdempotent(req);
    }

    /** handleCreateRoom; `built` is the configuration a new room gets. */
    method HandleCreateRoom(payload: Option<map<string, Json>>, mgr: RoomManager, defaults: ConfigDefaults,
                            clock: int, overlay: (ConfigData, map<string, Json>) -> ConfigData)
      returns (ghost built: ConfigData)
      requires mgr.Valid() && defaults.Valid()
      modifies this`currentRoom, this`outbox, mgr`rooms
      ensures mgr.Valid()
      ensures built == BuiltConfig(defaults.Current(), payload, overlay)
      ensures var s := CreateStep(old(currentRoom), old(mgr.rooms), payload, built, clock);
        currentRoom == s.room && mgr.rooms == s.rooms && outbox == old(outbox) + s.out
    {
      built := BuiltConfig(defaults.Current(), payload, overlay);
      if currentRoom.Some? {
        return;
      }
      var roomName := RoomNameOf(payload);
      roomName := TrimSpace(roomName);
      if roomName == "" {
        outbox := outbox + [Send(ErrorMsg(CreateNoNameMsg))];
        return;
      }
      var cfg := BuildConfig(payload, defaults, overlay);
      var room, roomId, ok := mgr.CreateRoom(roomName, cfg, clock);
      if !ok || room.None? {
        outbox := outbox + [Send(ErrorMsg(CreateNameTakenMsg))];
        return;
      }
      currentRoom := room;
      outbox := outbox + [RegisterWith(roomId), Send(RoomJoined(roomId, roomName, Some(cfg)))];
    }

    /** handleJoinRoom. */
    method HandleJoinRoom(payload: Option<map<string, Json>>, mgr: RoomManager)
      modifies this`currentRoom, this`outbox
      ensures var s := JoinStep(old(currentRoom), mgr.rooms, payload);
        currentRoom == s.room && outbox == old(outbox) + s.out
    {
      if currentRoom.Some? {
        return;
      }
      var roomId := RoomIdOf(payload);
      roomId := TrimSpace(roomId);
      if roomId == "" {
        outbox := outbox + [Send(ErrorMsg(JoinNoIdMsg))];
        return;
      }
      var room := mgr.GetRoom(roomId);
      if room.Some? {
        currentRoom := room;
        outbox := outbox + [RegisterWith(room.value.id), Send(RoomJoined(room.value.id, room.value.name, room.value.config))];
      } else {
        outbox := outbox + [Send(ErrorMsg(JoinNoRoomMsg))];
      }
    }

    /** handleListRooms: the summaries of every room, in the table's order. */
    method HandleListRooms(mgr: RoomManager)
      modifies this`outbox
      ensures exists order, s :: Lists(mgr.rooms, order, s) && outbox == old(outbox) + [Send(RoomsList(s))]
    {
      var s, order := mgr.ListRoomSummaries();
      outbox := outbox + [Send(RoomsList(s))];
    }

    /** One pass of readPump's loop body.  Game packets go through the
        corrected decoding DecodeGame: a move without a numeric x and y is
        ignored, where the code as written panics (MoveWithoutXPanics). */
    method HandleFrame(f: Frame, mgr: RoomManager, defaults: ConfigDefaults, clock: int,
                       overlay: (ConfigData, map<string, Json>) -> ConfigData)
      requires mgr.Valid() && defaults.Valid()
      modifies this`currentRoom, this`outbox, mgr`rooms
      ensures mgr.Valid()
      ensures old(currentRoom).Some? ==> currentRoom == old(currentRoom)
      ensures |outbox| >= |old(outbox)| && outbox[..|old(outbox)|] == old(outbox)
      ensures Addressed(outbox, |old(outbox)|, currentRoom) && NoUnregister(outbox, |old(outbox)|)
      ensures Classify(f).Skip? ==> currentRoom == old(currentRoom) && outbox == old(outbox) && mgr.rooms == old(mgr.rooms)
      ensures Classify(f).CreateRoom? ==>
        var s := CreateStep(old(currentRoom), old(mgr.rooms), Classify(f).payload,
                            BuiltConfig(defaults.Current(), Classify(f).payload, overlay), clock);
        currentRoom == s.room && mgr.rooms == s.rooms && outbox == old(outbox) + s.out
      ensures Classify(f).JoinRoom? ==>
        var s := JoinStep(old(currentRoom), old(mgr.rooms), Classify(f).payload);
        currentRoom == s.room && mgr.rooms == old(mgr.rooms) && outbox == old(outbox) + s.out
      ensures Classify(f).ListRooms? ==>
        currentRoom == old(currentRoom) && mgr.rooms == old(mgr.rooms) &&
        exists order, s :: Lists(mgr.rooms, order, s) && outbox == old(outbox) + [Send(RoomsList(s))]
      ensures Classify(f).Game? ==>
        currentRoom == old(currentRoom) && mgr.rooms == old(mgr.rooms) &&
        outbox == old(outbox) + (
          var d := DecodeGame(Classify(f).code, Classify(f).req, sessionId);
          if old(currentRoom).Some? && d.Forward? then [Input(old(currentRoom).value.id, d.input)] else [])
    {
      var d := Classify(f);
      match d
      case Skip =>
      case CreateRoom(payload) =>
        var built := HandleCreateRoom(payload, mgr, defaults, clock, overlay);
        CreateStepAddressed(old(currentRoom), old(mgr.rooms), payload, BuiltConfig(defaults.Current(), payload, overlay), clock);
        AddressedAppend(old(outbox), CreateStep(old(currentRoom), old(mgr.rooms), payload, BuiltConfig(defaults.Current(), payload, overlay), clock));
      case JoinRoom(payload) =>
        HandleJoinRoom(payload, mgr);
        JoinStepAddressed(old(currentRoom), mgr.rooms, payload);
        AddressedAppend(old(outbox), JoinStep(old(currentRoom), mgr.rooms, payload));
      case ListRooms =>
        HandleListRooms(mgr);
      case Game(code, req) =>
        if currentRoom.None? {
          return;
        }
        var g := DecodeGame(code, req, sessionId);
        if g.Forward? {
          outbox := outbox + [Input(currentRoom.value.id, g.input)];
        }
    }

    /** readPump: the frames read before the socket fails, each handled in
        turn (with the clock reading of its moment), then the deferred
        unregistration from the room the client ended up in.  A room, once
        entered, is never left or swapped; every registration and every
        forwarded input goes to that room; the only unregistration is the
        last output, and it is there exactly when the client is in a room.
        Since HandleFrame uses the corrected move decoding, the loop does not
        model the crash the as-written decoding causes. */
    method ReadPump(frames: seq<Frame>, clocks: seq<int>, mgr: RoomManager, defaults: ConfigDefaults,
                    overlay: (ConfigData, map<string, Json>) -> ConfigData)
      requires |clocks| == |frames|
      requires mgr.Valid() && defaults.Valid()
      modifies this`currentRoom, this`outbox, mgr`rooms
      ensures mgr.Valid()
      ensures old(currentRoom).Some? ==> currentRoom == old(currentRoom)
      ensures |outbox| >= |old(outbox)| && outbox[..|old(outbox)|] == old(outbox)
      ensures Addressed(outbox, |old(outbox)|, currentRoom)
      ensures currentRoom.Some? ==>
        (|outbox| > |old(outbox)| && outbox[|outbox| - 1] == UnregisterFrom(currentRoom.value.id) &&
         NoUnregister(outbox[..|outbox| - 1], |old(outbox)|))
      ensures currentRoom.None? ==> NoUnregister(outbox, |old(outbox)|)
    {
      var i := 0;
      while i < |frames|
        invariant 0 <= i <= |frames|
        invariant mgr.Valid()
        invariant old(currentRoom).Some? ==> currentRoom == old(currentRoom)
        invariant |outbox| >= |old(outbox)| && outbox[..|old(outbox)|] == old(outbox)
        invariant Addressed(outbox, |old(outbox)|, currentRoom) && NoUnregister(outbox, |old(outbox)|)
      {
        ghost var before, room := outbox, currentRoom;
        HandleFrame(frames[i], mgr, defaults, clocks[i], overlay);
        AddressedExtends(before, outbox, |old(outbox)|, room, currentRoom);
        i := i + 1;
      }
      if currentRoom.Some? {
        ghost var before := outbox;
        outbox := outbox + [UnregisterFrom(currentRoom.value.id)];
        assert outbox[..|outbox| - 1] == before;
      }
    }
  }
}
