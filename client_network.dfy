/** The client's connection object (frontend/client/network.py): its
    connection flag, the identity it rejoins with, the automatic rejoin sent
    when a connection opens, the gating of outgoing messages and the queue of
    received ones.  The websocket is reduced to whether one is attached and
    the sequence of values handed to its send. */
module ClientNetwork {
  import opened Wrappers
  import opened JsonValues

  /** The payload of the rejoin request: room_id always, session_id and name
      only when non-empty. */
  function RejoinPayload(roomId: string, sid: string, name: string): (p: map<string, Json>)
    ensures "room_id" in p && p["room_id"] == JStr(roomId)
    ensures "session_id" in p <==> sid != ""
    ensures "session_id" in p ==> p["session_id"] == JStr(sid)
    ensures "name" in p <==> name != ""
    ensures "name" in p ==> p["name"] == JStr(name)
    ensures p.Keys <= {"room_id", "session_id", "name"}
  {
    var p0 := map["room_id" := JStr(roomId)];
    var p1 := if sid != "" then p0["session_id" := JStr(sid)] else p0;
    if name != "" then p1["name" := JStr(name)] else p1
  }

  /** The JOIN_ROOM (1011) request _on_open sends to rejoin a room. */
  function RejoinRequest(roomId: string, sid: string, name: string): Json {
    JObj(map["type" := JNum(1011.0), "payload" := JObj(RejoinPayload(roomId, sid, name))])
  }

  /** A join request carries type 1011 and its payload names the room. */
  lemma RejoinRequestNamesRoom(roomId: string, sid: string, name: string)
    ensures var r := RejoinRequest(roomId, sid, name);
      Member(r, "type") == Some(JNum(1011.0)) &&
      Member(r, "payload").Some? && Member(Member(r, "payload").value, "room_id") == Some(JStr(roomId))
  {
  }

  /** Different identities give different rejoin payloads. */
  lemma RejoinPayloadInjective(r1: string, s1: string, n1: string, r2: string, s2: string, n2: string)
    requires RejoinPayload(r1, s1, n1) == RejoinPayload(r2, s2, n2)
    ensures r1 == r2 && s1 == s2 && n1 == n2
  {
    var p := RejoinPayload(r1, s1, n1);
    assert p["room_id"] == JStr(r1) && p["room_id"] == JStr(r2);
    if s1 != "" {
      assert p["session_id"] == JStr(s1);
    }
    if n1 != "" {
      assert p["name"] == JStr(n1);
    }
  }

  /** `x or ""` for an optional string argument. */
  function OrEmpty(x: Option<string>): (r: string)
    ensures x.None? ==> r == ""
    ensures x.Some? ==> r == x.value
  {
    if x.Some? then x.value else ""
  }

  class NetworkClient {
    /** self.ws is not None */
    var wsAttached: bool
    var connected: bool
    var sessionId: string
    var playerName: string
    var autoJoinRoomId: string
    /** The values handed to ws.send, in order. */
    var sent: seq<Json>
    /** recv_queue. */
    var received: seq<Json>

    /** __init__: no socket, not connected, identity from the arguments
        (or ""), and no room to rejoin. */
    constructor (sid: Option<string>, name: Option<string>)
      ensures !wsAttached && !connected
      ensures sessionId == OrEmpty(sid) && playerName == OrEmpty(name) && autoJoinRoomId == ""
      ensures sent == [] && received == []
    {
      wsAttached, connected := false, false;
      sessionId, playerName := OrEmpty(sid), OrEmpty(name);
      autoJoinRoomId := "";
      sent, received := [], [];
    }

    /** _run's assignment of a new WebSocketApp to self.ws. */
    method Attach()
      modifies this`wsAttached
      ensures wsAttached
    {
      wsAttached := true;
    }

    /** send: the value reaches the socket only while a socket is attached
        and the connection is open; otherwise it is dropped.  An exception
        from the socket is swallowed after the hand-over. */
    method Send(data: Json)
      modifies this`sent
      ensures wsAttached && connected ==> sent == old(sent) + [data]
      ensures !(wsAttached && connected) ==> sent == old(sent)
    {
      if wsAttached && connected {
        sent := sent + [data];
      }
    }

    /** _on_open: marks the connection open and, when a room is remembered,
        sends exactly one rejoin request for it. */
    method OnOpen()
      modifies this`connected, this`sent
      ensures connected
      ensures autoJoinRoomId != "" && wsAttached ==>
        sent == old(sent) + [RejoinRequest(autoJoinRoomId, sessionId, playerName)]
      ensures !(autoJoinRoomId != "" && wsAttached) ==> sent == old(sent)
    {
      connected := true;
      var roomId, sid, nm := autoJoinRoomId, sessionId, playerName;
      if roomId != "" {
        Send(RejoinRequest(roomId, sid, nm));
      }
    }

    /** _on_message: a message that parses (`parsed` is json.loads' result,
        None when it raised) is queued; otherwise nothing is. */
    method OnMessage(parsed: Option<Json>)
      modifies this`received
      ensures parsed.Some? ==> received == old(received) + [parsed.value]
      ensures parsed.None? ==> received == old(received)
    {
      if parsed.Some? {
        received := received + [parsed.value];
      }
    }

    /** _on_close. */
    method OnClose()
      modifies this`connected
      ensures !connected
    {
      connected := false;
    }

    /** set_identity: a None argument leaves its field alone. */
    method SetIdentity(sid: Option<string>, name: Option<string>)
      modifies this`sessionId, this`playerName
      ensures sessionId == if sid.Some? then sid.value else old(sessionId)
      ensures playerName == if name.Some? then name.value else old(playerName)
    {
      if sid.Some? {
        sessionId := sid.value;
      }
      if name.Some? {
        playerName := name.value;
      }
    }

    /** set_auto_join: str(room_id or ""). */
    method SetAutoJoin(roomId: Option<string>)
      modifies this`autoJoinRoomId
      ensures autoJoinRoomId == OrEmpty(roomId)
    {
      autoJoinRoomId := OrEmpty(roomId);
    }

    /** clear_auto_join. */
    method ClearAutoJoin()
      modifies this`autoJoinRoomId
      ensures autoJoinRoomId == ""
    {
      autoJoinRoomId := "";
    }
  }

  /** A reconnect cycle from any state with a remembered room: the connection
      closes, a message sent meanwhile is dropped, and reopening sends exactly
      one rejoin request for that room with the identity held. */
  method ReconnectRejoins(c: NetworkClient, msg: Json)
    requires c.autoJoinRoomId != "" && c.wsAttached
    modifies c
    ensures c.connected
    ensures c.autoJoinRoomId == old(c.autoJoinRoomId) && c.sessionId == old(c.sessionId) &&
            c.playerName == old(c.playerName)
    ensures c.sent == old(c.sent) + [RejoinRequest(old(c.autoJoinRoomId), old(c.sessionId), old(c.playerName))]
    ensures c.received == old(c.received)
  {
    c.OnClose();
    c.Send(msg);
    c.OnOpen();
  }
}
