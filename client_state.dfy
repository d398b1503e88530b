/** The client's copy of the game state (frontend/client/gamestate.py): the
    defaults of a new GameState and update_from_server, which merges the
    "self" and "vision" blocks of a snapshot.  Python values are JSON values;
    a subscript or call that raises (KeyError, TypeError, AttributeError)
    ends the update early, keeping the fields already written. */
module ClientGameState {
  import opened Wrappers
  import opened JsonValues

  /** The fields of a GameState object. */
  datatype Fields = Fields(
    mapWidth: int, mapHeight: int, mapTiles: seq<Json>, selfId: Json,
    players: map<Json, Json>, entities: seq<Json>,
    myPos: seq<Json>, myHp: Json, viewRadius: Json)

  /** The state update_from_server leaves, and whether it raised. */
  datatype Outcome = Outcome(fields: Fields, raised: bool)

  /** The players collected so far, and whether the loop ran to the end. */
  datatype Collected = Collected(players: map<Json, Json>, ok: bool)

  /** A value Python can use as a dict key: lists and dicts are unhashable. */
  predicate Hashable(v: Json) {
    !v.JArr? && !v.JObj?
  }

  /** A vision entry the loop can store: a dict whose "session_id" is hashable. */
  predicate IsEntry(p: Json) {
    p.JObj? && "session_id" in p.fields && Hashable(p.fields["session_id"])
  }

  function SessionKey(p: Json): Json
    requires IsEntry(p)
  {
    p.fields["session_id"]
  }

  /** `for p in items: players[p["session_id"]] = p`, starting from `acc`;
      the first entry that is not a dict with a hashable "session_id" raises. */
  function Collect(items: seq<Json>, acc: map<Json, Json>): (c: Collected)
    ensures acc.Keys <= c.players.Keys
    decreases |items|
  {
    if items == [] then Collected(acc, true)
    else if !IsEntry(items[0]) then Collected(acc, false)
    else Collect(items[1..], acc[SessionKey(items[0]) := items[0]])
  }

  /** What `for p in v` does with a "players" value: a list is walked; a
      dict or string yields strings, which the subscript rejects unless there
      are none; anything else is not iterable. */
  function VisionPlayers(v: Json): (c: Collected)
    ensures c.ok ==> v.JArr? || v == JObj(map[]) || v == JStr("")
    ensures !v.JArr? ==> c.players == map[]
  {
    match v
    case JArr(items) => Collect(items, map[])
    case JObj(m) => Collected(map[], m == map[])
    case JStr(t) => Collected(map[], t == "")
    case _ => Collected(map[], false)
  }

  /** The "self" block: s.get("session_id"), then [s["pos"]["x"],
      s["pos"]["y"]], s["hp"] and s["view_radius"], each written as soon as
      it is read. */
  function SelfBlock(f: Fields, s: Json): (o: Outcome)
    ensures o.fields.(selfId := f.selfId, myPos := f.myPos, myHp := f.myHp, viewRadius := f.viewRadius) == f
    ensures !o.raised <==>
      (s.JObj? && Member(s, "pos").Some? && Member(Member(s, "pos").value, "x").Some? &&
       Member(Member(s, "pos").value, "y").Some? && "hp" in s.fields && "view_radius" in s.fields)
  {
    if !s.JObj? then Outcome(f, true)
    else
      var f1 := f.(selfId := if "session_id" in s.fields then s.fields["session_id"] else JNull);
      var pos := Member(s, "pos");
      if pos.None? || Member(pos.value, "x").None? || Member(pos.value, "y").None? then Outcome(f1, true)
      else
        var f2 := f1.(myPos := [Member(pos.value, "x").value, Member(pos.value, "y").value]);
        var hp := Member(s, "hp");
        if hp.None? then Outcome(f2, true)
        else
          var f3 := f2.(myHp := hp.value);
          var vr := Member(s, "view_radius");
          if vr.None? then Outcome(f3, true) else Outcome(f3.(viewRadius := vr.value), false)
  }

  /** The "vision" block: players is reset, then refilled from
      payload["vision"]["players"]. */
  function VisionBlock(f: Fields, vision: Json): (o: Outcome)
    ensures o.fields.(players := f.players) == f
    ensures !o.raised ==> Member(vision, "players").Some?
  {
    var ps := Member(vision, "players");
    if ps.None? then Outcome(f.(players := map[]), true)
    else
      var c := VisionPlayers(ps.value);
      Outcome(f.(players := c.players), !c.ok)
  }

  /** update_from_server(payload) for a snapshot payload (a JSON object). */
  function Updated(f: Fields, payload: map<string, Json>): (r: Outcome)
    ensures r.fields.mapWidth == f.mapWidth && r.fields.mapHeight == f.mapHeight
    ensures r.fields.mapTiles == f.mapTiles && r.fields.entities == f.entities
  {
    var o := if "self" in payload then SelfBlock(f, payload["self"]) else Outcome(f, false);
    if o.raised then o
    else if "vision" in payload then VisionBlock(o.fields, payload["vision"])
    else o
  }

  // ---------------------------------------------------------------------------
  // Properties of the merge

  /** The self fields are touched only by a payload with "self". */
  lemma NoSelfKeepsSelf(f: Fields, payload: map<string, Json>)
    requires "self" !in payload
    ensures var g := Updated(f, payload).fields;
      g.selfId == f.selfId && g.myPos == f.myPos && g.myHp == f.myHp && g.viewRadius == f.viewRadius
  {
  }

  /** A complete "self" block is copied: the position as [x, y], hp and
      view_radius as given, and self_id from session_id, or None when it is
      missing. */
  lemma SelfBlockCopies(f: Fields, payload: map<string, Json>)
    requires "self" in payload && payload["self"].JObj?
    requires var s := payload["self"].fields;
      "pos" in s && "hp" in s && "view_radius" in s &&
      s["pos"].JObj? && "x" in s["pos"].fields && "y" in s["pos"].fields
    ensures var s := payload["self"].fields;
      var g := Updated(f, payload).fields;
      g.myPos == [s["pos"].fields["x"], s["pos"].fields["y"]] && g.myHp == s["hp"] &&
      g.viewRadius == s["view_radius"] &&
      g.selfId == (if "session_id" in s then s["session_id"] else JNull)
  {
  }

  /** Without "vision", the players table is left as it was. */
  lemma NoVisionKeepsPlayers(f: Fields, payload: map<string, Json>)
    requires "vision" !in payload
    ensures Updated(f, payload).fields.players == f.players
  {
  }

  /** With "vision" (and a "self" block, if any, that did not raise), the
      old players table is discarded: whatever the outcome, only players of
      this payload remain. */
  lemma VisionReplacesPlayers(f: Fields, payload: map<string, Json>, old_players: map<Json, Json>)
    requires "vision" in payload
    requires "self" in payload ==> !SelfBlock(f, payload["self"]).raised
    ensures Updated(f.(players := old_players), payload).fields.players == Updated(f, payload).fields.players
    ensures var g := Updated(f, payload).fields;
      forall k | k in g.players :: IsEntry(g.players[k]) && SessionKey(g.players[k]) == k
  {
    if "self" in payload {
      assert SelfBlock(f.(players := old_players), payload["self"]) ==
             SelfBlock(f, payload["self"]).(fields := SelfBlock(f, payload["self"]).fields.(players := old_players));
    }
    var o := if "self" in payload then SelfBlock(f, payload["self"]) else Outcome(f, false);
    var ps := Member(payload["vision"], "players");
    assert Updated(f, payload) == VisionBlock(o.fields, payload["vision"]);
    if ps.Some? && ps.value.JArr? {
      var empty: map<Json, Json> := map[];
      CollectStoresEntries(ps.value.items, empty);
      assert var c := Collect(ps.value.items, empty);
        forall k | k in c.players :: IsEntry(c.players[k]) && SessionKey(c.players[k]) == k;
    }
  }

  /** Every stored player sits under its own session id. */
  lemma {:induction false} CollectStoresEntries(items: seq<Json>, acc: map<Json, Json>)
    requires forall k | k in acc :: IsEntry(acc[k]) && SessionKey(acc[k]) == k
    ensures var c := Collect(items, acc);
      forall k | k in c.players :: IsEntry(c.players[k]) && SessionKey(c.players[k]) == k
    decreases |items|
  {
    if items != [] && IsEntry(items[0]) {
      var acc' := acc[SessionKey(items[0]) := items[0]];
      CollectStoresEntries(items[1..], acc');
      assert Collect(items, acc) == Collect(items[1..], acc');
    }
  }

  /** The loop runs to the end exactly when every element is an entry. */
  lemma {:induction false} CollectOkIff(items: seq<Json>, acc: map<Json, Json>)
    ensures Collect(items, acc).ok <==> forall i | 0 <= i < |items| :: IsEntry(items[i])
    decreases |items|
  {
    if items != [] && IsEntry(items[0]) {
      CollectOkIff(items[1..], acc[SessionKey(items[0]) := items[0]]);
      assert forall i | 1 <= i < |items| :: items[i] == items[1..][i - 1];
    }
  }

  /** Some element of items is an entry with session id k. */
  predicate Lists(items: seq<Json>, k: Json) {
    exists i | 0 <= i < |items| :: IsEntry(items[i]) && SessionKey(items[i]) == k
  }

  /** For a list of entries, the table holds exactly the listed session ids
      on top of those of `acc`. */
  lemma {:induction false} CollectKeys(items: seq<Json>, acc: map<Json, Json>)
    requires forall i | 0 <= i < |items| :: IsEntry(items[i])
    ensures forall k :: k in Collect(items, acc).players <==> k in acc || Lists(items, k)
    decreases |items|
  {
    if items != [] {
      var rest := items[1..];
      var acc' := acc[SessionKey(items[0]) := items[0]];
      assert forall i | 0 <= i < |rest| :: rest[i] == items[i + 1];
      CollectKeys(rest, acc');
      assert Collect(items, acc) == Collect(rest, acc');
      forall k
        ensures Lists(items, k) <==> SessionKey(items[0]) == k || Lists(rest, k)
      {
        if Lists(items, k) {
          var i :| 0 <= i < |items| && IsEntry(items[i]) && SessionKey(items[i]) == k;
          if i > 0 {
            assert IsEntry(rest[i - 1]) && SessionKey(rest[i - 1]) == k;
          }
        }
        if Lists(rest, k) {
          var i :| 0 <= i < |rest| && IsEntry(rest[i]) && SessionKey(rest[i]) == k;
          assert IsEntry(items[i + 1]) && SessionKey(items[i + 1]) == k;
        }
      }
    }
  }

  /** Later duplicates win: an entry whose session id does not occur again
      further on is the one stored under that id. */
  lemma {:induction false} CollectLastWins(items: seq<Json>, acc: map<Json, Json>, i: nat)
    requires forall j | 0 <= j < |items| :: IsEntry(items[j])
    requires i < |items|
    requires forall j | i < j < |items| :: SessionKey(items[j]) != SessionKey(items[i])
    ensures var c := Collect(items, acc);
      SessionKey(items[i]) in c.players && c.players[SessionKey(items[i])] == items[i]
    decreases |items|
  {
    var rest := items[1..];
    var acc' := acc[SessionKey(items[0]) := items[0]];
    assert Collect(items, acc) == Collect(rest, acc');
    if i > 0 {
      assert rest[i - 1] == items[i];
      forall j | i - 1 < j < |rest|
        ensures SessionKey(rest[j]) != SessionKey(rest[i - 1])
      {
        assert rest[j] == items[j + 1];
      }
      CollectLastWins(rest, acc', i - 1);
    } else {
      CollectKeepsUnlisted(rest, acc', SessionKey(items[0]));
    }
  }

  /** An id the list does not mention keeps its entry from `acc`. */
  lemma {:induction false} CollectKeepsUnlisted(items: seq<Json>, acc: map<Json, Json>, k: Json)
    requires forall j | 0 <= j < |items| :: IsEntry(items[j])
    requires forall j | 0 <= j < |items| :: SessionKey(items[j]) != k
    requires k in acc
    ensures k in Collect(items, acc).players && Collect(items, acc).players[k] == acc[k]
    decreases |items|
  {
    if items != [] {
      var rest := items[1..];
      forall j | 0 <= j < |rest|
        ensures IsEntry(rest[j]) && SessionKey(rest[j]) != k
      {
        assert rest[j] == items[j + 1];
      }
      CollectKeepsUnlisted(rest, acc[SessionKey(items[0]) := items[0]], k);
    }
  }

  /** A "vision" block listing entries only, after a "self" block (if any)
      that did not raise: the update completes, and players holds exactly the
      listed session ids, each mapped to the last entry carrying it. */
  lemma VisionListIndexed(f: Fields, payload: map<string, Json>, items: seq<Json>)
    requires "self" in payload ==> !SelfBlock(f, payload["self"]).raised
    requires "vision" in payload && Member(payload["vision"], "players") == Some(JArr(items))
    requires forall i | 0 <= i < |items| :: IsEntry(items[i])
    ensures var r := Updated(f, payload);
      !r.raised &&
      (forall k :: k in r.fields.players <==> Lists(items, k)) &&
      (forall i | 0 <= i < |items| && (forall j | i < j < |items| :: SessionKey(items[j]) != SessionKey(items[i])) ::
         r.fields.players[SessionKey(items[i])] == items[i])
  {
    var empty: map<Json, Json> := map[];
    var c := Collect(items, empty);
    CollectOkIff(items, empty);
    CollectKeys(items, empty);
    assert Updated(f, payload).fields.players == c.players;
    forall i | 0 <= i < |items| && (forall j | i < j < |items| :: SessionKey(items[j]) != SessionKey(items[i]))
      ensures c.players[SessionKey(items[i])] == items[i]
    {
      CollectLastWins(items, empty, i);
    }
  }

  /** The merge is idempotent: every field it writes takes a value read from
      the payload alone, so a second application changes nothing and fails
      (if at all) at the same point. */
  lemma UpdateIdempotent(f: Fields, payload: map<string, Json>)
    ensures Updated(Updated(f, payload).fields, payload) == Updated(f, payload)
  {
    var o := Updated(f, payload);
    if "self" in payload {
      var s := payload["self"];
      assert SelfBlock(o.fields, s).fields == SelfBlock(f, s).fields.(players := o.fields.players);
    }
  }

  // ---------------------------------------------------------------------------
  // The object

  class GameState {
    var mapWidth: int
    var mapHeight: int
    var mapTiles: seq<Json>
    var selfId: Json
    var players: map<Json, Json>
    var entities: seq<Json>
    var myPos: seq<Json>
    var myHp: Json
    var viewRadius: Json

    function State(): Fields
      reads this
    {
      Fields(mapWidth, mapHeight, mapTiles, selfId, players, entities, myPos, myHp, viewRadius)
    }

    /** __init__: a 32 by 32 map with no tiles yet, no identity, no players
        or entities, at [0, 0] with 100 hp and view radius 5.0. */
    constructor ()
      ensures State() == Fields(32, 32, [], JNull, map[], [], [JNum(0.0), JNum(0.0)], JNum(100.0), JNum(5.0))
    {
      mapWidth, mapHeight := 32, 32;
      mapTiles := [];
      selfId := JNull;
      players := map[];
      entities := [];
      myPos := [JNum(0.0), JNum(0.0)];
      myHp := JNum(100.0);
      viewRadius := JNum(5.0);
    }

    /** update_from_server; `raised` says whether it ended in an exception. */
    method UpdateFromServer(payload: map<string, Json>) returns (raised: bool)
      modifies this
      ensures Outcome(State(), raised) == Updated(old(State()), payload)
    {
      if "self" in payload {
        raised := ApplySelf(payload["self"]);
        if raised {
          return;
        }
      }
      if "vision" in payload {
        raised := ApplyVision(payload["vision"]);
        return;
      }
      return false;
    }

    /** The "self" block of update_from_server. */
    method ApplySelf(s: Json) returns (raised: bool)
      modifies this
      ensures Outcome(State(), raised) == SelfBlock(old(State()), s)
    {
      if !s.JObj? {
        return true;
      }
      selfId := if "session_id" in s.fields then s.fields["session_id"] else JNull;
      var pos := Member(s, "pos");
      if pos.None? {
        return true;
      }
      var x, y := Member(pos.value, "x"), Member(pos.value, "y");
      if x.None? || y.None? {
        return true;
      }
      myPos := [x.value, y.value];
      var hp := Member(s, "hp");
      if hp.None? {
        return true;
      }
      myHp := hp.value;
      var vr := Member(s, "view_radius");
      if vr.None? {
        return true;
      }
      viewRadius := vr.value;
      return false;
    }

    /** The "vision" block of update_from_server. */
    method ApplyVision(vision: Json) returns (raised: bool)
      modifies this
      ensures Outcome(State(), raised) == VisionBlock(old(State()), vision)
    {
      players := map[];
      var ps := Member(vision, "players");
      if ps.None? {
        return true;
      }
      match ps.value {
        case JArr(items) =>
          raised := CollectPlayers(items);
        case JObj(m) =>
          raised := m != map[];
        case JStr(t) =>
          raised := t != "";
        case _ =>
          raised := true;
      }
    }

    /** The loop over the vision players, storing into `players`. */
    method CollectPlayers(items: seq<Json>) returns (raised: bool)
      modifies this`players
      ensures Collected(players, !raised) == Collect(items, old(players))
    {
      var i := 0;
      while i < |items|
        invariant 0 <= i <= |items|
        invariant Collect(items[i..], players) == Collect(items, old(players))
      {
        var p := items[i];
        assert items[i..][0] == p && items[i..][1..] == items[i + 1..];
        if !IsEntry(p) {
          return true;
        }
        players := players[SessionKey(p) := p];
        i := i + 1;
      }
      return false;
    }
  }
}
