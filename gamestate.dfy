/** The server's game state (backend/logic/gamestate.go): the player table,
    the entity table, the phase and the bounded event log, with the handlers
    for tactic choice, game start, merchant placement, drop / sell / buy, the
    shop refresh, joining and extraction.  Player records are values in the
    table; a handler writes the updated record back under its session id. */
module GameLogic {
  import opened Geometry
  import opened Wrappers
  import opened Entities
  import opened Maze
  import opened Text
  import opened ConfigValidation
  import opened PlayerRules

  const PhaseInit: int := 0
  const PhaseSearch: int := 1
  const PhaseConflict: int := 2
  const PhaseEscape: int := 3
  const PhaseEnded: int := 4

  /** The event log keeps this many entries. */
  const MaxEvents: nat := 5

  /** A merchant serves players within this distance; the model compares
      squared distances with its square. */
  const MerchantReachSq: real := 9.0

  datatype GlobalEvent = GlobalEvent(kind: string, msg: string)

  // ---------------------------------------------------------------------------
  // The event log

  /** addEvent on the log: the new event goes last, and when the log then
      holds more than five entries the oldest one is dropped. */
  function AppendEvent(events: seq<GlobalEvent>, e: GlobalEvent): (r: seq<GlobalEvent>)
    ensures 0 < |r| <= |events| + 1 && r[|r| - 1] == e
    ensures r == (events + [e])[|events| + 1 - |r|..]
    ensures |events| < MaxEvents ==> r == events + [e]
    ensures |events| <= MaxEvents ==> |r| <= MaxEvents
  {
    var all := events + [e];
    if |all| > MaxEvents then all[1..] else all
  }

  /** The last n entries of s (all of s when it is shorter). */
  function LastN<T>(s: seq<T>, n: nat): (r: seq<T>)
    ensures |r| <= n && |r| <= |s| && r == s[|s| - |r|..]
    ensures |s| <= n ==> r == s
  {
    if |s| <= n then s else s[|s| - n..]
  }

  /** addEvent applied to each event of es in turn. */
  function AppendEvents(events: seq<GlobalEvent>, es: seq<GlobalEvent>): seq<GlobalEvent>
    decreases |es|
  {
    if es == [] then events else AppendEvents(AppendEvent(events, es[0]), es[1..])
  }

  lemma LastNOfLastN<T>(a: seq<T>, b: seq<T>, n: nat)
    ensures LastN(LastN(a, n) + b, n) == LastN(a + b, n)
  {
    var c := LastN(a, n);
    assert a == a[..|a| - |c|] + c;
    assert a + b == a[..|a| - |c|] + (c + b);
  }

  /** One addEvent keeps the latest five entries of the log and the new event. */
  lemma AppendEventIsLastN(events: seq<GlobalEvent>, e: GlobalEvent)
    requires |events| <= MaxEvents
    ensures AppendEvent(events, e) == LastN(events + [e], MaxEvents)
  {
  }

  /** However many events arrive, a log that started within the bound holds
      exactly the latest five of everything it has seen, oldest first. */
  lemma {:induction false} AppendEventsKeepsLatest(events: seq<GlobalEvent>, es: seq<GlobalEvent>)
    requires |events| <= MaxEvents
    ensures AppendEvents(events, es) == LastN(events + es, MaxEvents)
    decreases |es|
  {
    if es == [] {
      assert events + es == events;
    } else {
      var next := AppendEvent(events, es[0]);
      AppendEventIsLastN(events, es[0]);
      AppendEventsKeepsLatest(next, es[1..]);
      LastNOfLastN(events + [es[0]], es[1..], MaxEvents);
      assert events + [es[0]] + es[1..] == events + es;
    }
  }

  // ---------------------------------------------------------------------------
  // Lookups the handlers perform by looping

  /** A merchant entity stands within reach of pos (Distance <= 3.0). */
  predicate MerchantWithin(es: map<string, Entity>, pos: Vec2) {
    exists k | k in es :: es[k].kind == Merchant && DistSq(pos, es[k].pos) <= MerchantReachSq
  }

  /** The squared test agrees with the source's Distance(a, b) <= 3.0, since
      Distance is the non-negative square root of the squared distance. */
  lemma ReachIsSquaredTest(d: real)
    requires d >= 0.0
    ensures d <= 3.0 <==> Sq(d) <= MerchantReachSq
  {
    SqIsProduct(3.0);
    if d <= 3.0 {
      SqMonotone(d, 3.0);
    } else {
      SqStrictlyMonotone(3.0, d);
    }
  }

  /** The merchant-distance loop of the shop handlers. */
  method AnyMerchantWithin(es: map<string, Entity>, pos: Vec2) returns (near: bool)
    ensures near == MerchantWithin(es, pos)
  {
    var keys := es.Keys;
    while keys != {}
      invariant keys <= es.Keys
      invariant forall k | k in es && k !in keys ::
        !(es[k].kind == Merchant && DistSq(pos, es[k].pos) <= MerchantReachSq)
      decreases |keys|
    {
      var k :| k in keys;
      if es[k].kind == Merchant && DistSq(pos, es[k].pos) <= MerchantReachSq {
        return true;
      }
      keys := keys - {k};
    }
    return false;
  }

  /** The shop-stock membership loop of HandleBuyItem. */
  method StockContains(stock: seq<string>, id: string) returns (b: bool)
    ensures b <==> id in stock
  {
    var i := 0;
    while i < |stock|
      invariant 0 <= i <= |stock|
      invariant id !in stock[..i]
    {
      if stock[i] == id {
        return true;
      }
      i := i + 1;
    }
    assert stock[..i] == stock;
    return false;
  }

  /** The first catalogue entry with the given id. */
  function FirstWithId(db: seq<Item>, id: string): (r: Option<Item>)
    ensures r.Some? ==> exists i | 0 <= i < |db| :: db[i] == r.value && r.value.id == id &&
                          forall j | 0 <= j < i :: db[j].id != id
    ensures r.None? <==> forall j | 0 <= j < |db| :: db[j].id != id
  {
    if db == [] then None
    else if db[0].id == id then Some(db[0])
    else
      var rest := FirstWithId(db[1..], id);
      assert forall j | 1 <= j < |db| :: db[j] == db[1..][j - 1];
      rest
  }

  /** The ItemDB search loop of HandleBuyItem. */
  method FindCatalogueItem(db: seq<Item>, id: string) returns (r: Option<Item>)
    ensures r == FirstWithId(db, id)
  {
    var i := 0;
    while i < |db|
      invariant 0 <= i <= |db|
      invariant FirstWithId(db, id) == FirstWithId(db[i..], id)
    {
      if db[i].id == id {
        return Some(db[i]);
      }
      assert db[i..][1..] == db[i + 1..];
      i := i + 1;
    }
    return None;
  }

  /** The sessions whose player has chosen a tactic. */
  function ReadySessions(ps: map<string, Player>): set<string> {
    set s | s in ps && ps[s].tactic != ""
  }

  /** A player who has chosen a tactic makes the ready count positive. */
  lemma ChooserIsReady(ps: map<string, Player>, sid: string)
    requires sid in ps && ps[sid].tactic != ""
    ensures |ReadySessions(ps)| >= 1
  {
    assert sid in ReadySessions(ps);
  }

  /** The ready-count loop of HandleChooseTactic. */
  method CountReady(ps: map<string, Player>) returns (n: nat)
    ensures n == |ReadySessions(ps)|
  {
    var keys := ps.Keys;
    n := 0;
    while keys != {}
      invariant keys <= ps.Keys
      invariant n == |set s | s in ps && s !in keys && ps[s].tactic != ""|
      decreases |keys|
    {
      var k :| k in keys;
      ghost var before := set s | s in ps && s !in keys && ps[s].tactic != "";
      keys := keys - {k};
      ghost var after := set s | s in ps && s !in keys && ps[s].tactic != "";
      if ps[k].tactic != "" {
        assert after == before + {k};
        n := n + 1;
      } else {
        assert after == before;
      }
    }
    assert ReadySessions(ps) == set s | s in ps && s !in keys && ps[s].tactic != "";
  }

  // ---------------------------------------------------------------------------
  // Merchant placement

  /** merchantAnchorForPhase: a fixed fraction of the map per phase. */
  function MerchantAnchor(w: int, h: int, phaseIdx: int): Vec2 {
    if phaseIdx == 2 then Vec2(w as real * 0.25, h as real * 0.25)
    else if phaseIdx == 3 then Vec2(w as real * 0.75, h as real * 0.75)
    else Vec2(w as real * 0.5, h as real * 0.5)
  }

  /** One coordinate of the search centre: rounded down, at least 1, and moved
      to size - 2 when it reaches size - 1. */
  function ClampAxis(v: real, size: int): real {
    var a := if v.Floor as real < 1.0 then 1.0 else v.Floor as real;
    if a >= size as real - 1.0 then size as real - 2.0 else a
  }

  /** The centre of the merchant's search: a cell corner inside the border on
      a map at least three cells wide and high. */
  function MerchantStart(w: int, h: int, phaseIdx: int): (pos: Vec2)
    ensures w >= 3 ==> 1.0 <= pos.x <= (w - 2) as real && pos.x == pos.x.Floor as real
    ensures h >= 3 ==> 1.0 <= pos.y <= (h - 2) as real && pos.y == pos.y.Floor as real
  {
    var a := MerchantAnchor(w, h, phaseIdx);
    Vec2(ClampAxis(a.x, w), ClampAxis(a.y, h))
  }

  /** The candidate at column offset dx and row offset dy from the centre. */
  function Offset(pos: Vec2, dx: int, dy: int): Vec2 {
    Vec2(pos.x + dx as real, pos.y + dy as real)
  }

  /** The candidate at offset (dx, dy) is walkable. */
  predicate WalkableAt(m: GameMap, pos: Vec2, dx: int, dy: int)
    requires m.Valid()
  {
    IsWalkable(m, pos.x + dx as real, pos.y + dy as real)
  }

  /** Some candidate at Chebyshev distance at most k from the centre is walkable. */
  ghost predicate WalkableWithin(m: GameMap, pos: Vec2, k: int)
    requires m.Valid()
  {
    exists dx, dy | -k <= dx <= k && -k <= dy <= k :: WalkableAt(m, pos, dx, dy)
  }

  /** The innermost loop of the search: row dy of the square of radius r,
      from column dx to r. */
  function SearchRow(m: GameMap, pos: Vec2, r: int, dy: int, dx: int): Option<Vec2>
    requires m.Valid()
    decreases r + 1 - dx
  {
    if dx > r then None
    else if WalkableAt(m, pos, dx, dy) then Some(Offset(pos, dx, dy))
    else SearchRow(m, pos, r, dy, dx + 1)
  }

  /** The middle loop: rows dy to r of the square of radius r. */
  function SearchSquare(m: GameMap, pos: Vec2, r: int, dy: int): Option<Vec2>
    requires m.Valid()
    decreases r + 1 - dy
  {
    if dy > r then None
    else
      var hit := SearchRow(m, pos, r, dy, -r);
      if hit.Some? then hit else SearchSquare(m, pos, r, dy + 1)
  }

  /** The outer loop: the squares of radius r to 6, each scanned row by row. */
  function SearchRings(m: GameMap, pos: Vec2, r: int): Option<Vec2>
    requires m.Valid()
    decreases 7 - r
  {
    if r > 6 then None
    else
      var hit := SearchSquare(m, pos, r, -r);
      if hit.Some? then hit else SearchRings(m, pos, r + 1)
  }

  /** The Chebyshev distance of offset (dx, dy) from the centre. */
  function Cheb(dx: int, dy: int): nat {
    var ax := if dx < 0 then -dx else dx;
    var ay := if dy < 0 then -dy else dy;
    if ax < ay then ay else ax
  }

  /** A row scan finds a walkable cell of its row exactly when there is one. */
  lemma {:induction false} SearchRowSpec(m: GameMap, pos: Vec2, r: int, dy: int, dx: int)
    requires m.Valid()
    ensures var hit := SearchRow(m, pos, r, dy, dx);
      (hit.None? <==> forall c | dx <= c <= r :: !WalkableAt(m, pos, c, dy)) &&
      (hit.Some? ==> exists c | dx <= c <= r :: WalkableAt(m, pos, c, dy) && hit.value == Offset(pos, c, dy))
    decreases r + 1 - dx
  {
    if dx <= r && !WalkableAt(m, pos, dx, dy) {
      SearchRowSpec(m, pos, r, dy, dx + 1);
    }
  }

  /** A square scan finds a walkable cell of rows dy to r exactly when there is one. */
  lemma {:induction false} SearchSquareSpec(m: GameMap, pos: Vec2, r: int, dy: int)
    requires m.Valid()
    ensures var hit := SearchSquare(m, pos, r, dy);
      (hit.None? <==> forall y, x | dy <= y <= r && -r <= x <= r :: !WalkableAt(m, pos, x, y)) &&
      (hit.Some? ==> exists y, x | dy <= y <= r && -r <= x <= r :: WalkableAt(m, pos, x, y) && hit.value == Offset(pos, x, y))
    decreases r + 1 - dy
  {
    if dy <= r {
      SearchRowSpec(m, pos, r, dy, -r);
      if SearchRow(m, pos, r, dy, -r).None? {
        SearchSquareSpec(m, pos, r, dy + 1);
      }
    }
  }

  /** The rings from r on, when nothing nearer than r is walkable: the search
      fails only when nothing within distance 6 is walkable, and otherwise it
      yields a walkable cell with nothing walkable strictly nearer. */
  lemma {:induction false} SearchRingsSpec(m: GameMap, pos: Vec2, r: int)
    requires m.Valid() && 0 <= r <= 7
    requires r > 0 ==> !WalkableWithin(m, pos, r - 1)
    ensures var hit := SearchRings(m, pos, r);
      (hit.None? <==> !WalkableWithin(m, pos, 6)) &&
      (hit.Some? ==> exists y, x | -6 <= y <= 6 && -6 <= x <= 6 ::
                       WalkableAt(m, pos, x, y) && hit.value == Offset(pos, x, y) &&
                       !WalkableWithin(m, pos, Cheb(x, y) - 1))
    decreases 7 - r
  {
    if r <= 6 {
      SearchSquareSpec(m, pos, r, -r);
      var hit := SearchSquare(m, pos, r, -r);
      if hit.Some? {
        var y, x :| -r <= y <= r && -r <= x <= r && WalkableAt(m, pos, x, y) && hit.value == Offset(pos, x, y);
        assert Cheb(x, y) == r;
        assert WalkableWithin(m, pos, 6);
      } else {
        assert !WalkableWithin(m, pos, r);
        SearchRingsSpec(m, pos, r + 1);
      }
    }
  }

  /** Where the merchant of a phase stands: the first walkable cell of the
      search, or the search centre itself when none is walkable. */
  function MerchantSpot(m: GameMap, phaseIdx: int): Vec2
    requires m.Valid()
  {
    var start := MerchantStart(m.width, m.height, phaseIdx);
    SearchRings(m, start, 0).GetOr(start)
  }

  /** The whole search yields a walkable cell nearest (in Chebyshev distance)
      to its centre, and fails only when no cell within distance 6 of the
      centre is walkable. */
  lemma SearchFindsNearest(m: GameMap, pos: Vec2)
    requires m.Valid()
    ensures var hit := SearchRings(m, pos, 0);
      (hit.None? <==> !WalkableWithin(m, pos, 6)) &&
      (hit.Some? ==>
         IsWalkable(m, hit.value.x, hit.value.y) &&
         exists y, x | -6 <= y <= 6 && -6 <= x <= 6 ::
           hit.value == Offset(pos, x, y) && !WalkableWithin(m, pos, Cheb(x, y) - 1))
  {
    SearchRingsSpec(m, pos, 0);
    var hit := SearchRings(m, pos, 0);
    if hit.Some? {
      var y, x :| -6 <= y <= 6 && -6 <= x <= 6 && WalkableAt(m, pos, x, y) &&
                  hit.value == Offset(pos, x, y) && !WalkableWithin(m, pos, Cheb(x, y) - 1);
      WalkableAtOffset(m, pos, x, y);
    }
  }

  /** A walkable candidate names a walkable cell. */
  lemma WalkableAtOffset(m: GameMap, pos: Vec2, dx: int, dy: int)
    requires m.Valid() && WalkableAt(m, pos, dx, dy)
    ensures var v := Offset(pos, dx, dy); IsWalkable(m, v.x, v.y)
  {
  }

  /** The merchant stands on a walkable cell nearest to the search centre, or
      on the centre itself when no cell within distance 6 of it is walkable. */
  lemma MerchantSpotIsNearestWalkable(m: GameMap, phaseIdx: int)
    requires m.Valid()
    ensures var s := MerchantStart(m.width, m.height, phaseIdx);
      var spot := MerchantSpot(m, phaseIdx);
      (!WalkableWithin(m, s, 6) ==> spot == s) &&
      (WalkableWithin(m, s, 6) ==>
         IsWalkable(m, spot.x, spot.y) &&
         exists y, x | -6 <= y <= 6 && -6 <= x <= 6 ::
           spot == Offset(s, x, y) && !WalkableWithin(m, s, Cheb(x, y) - 1))
  {
    SearchFindsNearest(m, MerchantStart(m.width, m.height, phaseIdx));
  }

  /** When the search centre itself is walkable the merchant stands on it. */
  lemma MerchantStaysOnWalkableStart(m: GameMap, phaseIdx: int)
    requires m.Valid()
    requires var s := MerchantStart(m.width, m.height, phaseIdx); IsWalkable(m, s.x, s.y)
    ensures MerchantSpot(m, phaseIdx) == MerchantStart(m.width, m.height, phaseIdx)
  {
    var s := MerchantStart(m.width, m.height, phaseIdx);
    assert Offset(s, 0, 0) == s;
    assert WalkableAt(m, s, 0, 0);
  }

  /** The innermost loop of spawnOrMoveMerchantForPhase: scan row dy of the
      square of radius r from left to right. */
  method ScanRow(m: GameMap, pos: Vec2, r: int, dy: int) returns (found: bool, best: Vec2)
    requires m.Valid()
    ensures found ==> SearchRow(m, pos, r, dy, -r) == Some(best)
    ensures !found ==> SearchRow(m, pos, r, dy, -r) == None
  {
    found, best := false, pos;
    var dx := -r;
    while dx <= r && !found
      invariant -r <= dx || r < 0
      invariant found ==> SearchRow(m, pos, r, dy, -r) == Some(best)
      invariant !found ==> SearchRow(m, pos, r, dy, -r) == SearchRow(m, pos, r, dy, dx)
      decreases r + 1 - dx
    {
      if WalkableAt(m, pos, dx, dy) {
        best := Offset(pos, dx, dy);
        found := true;
      }
      dx := dx + 1;
    }
  }

  /** The middle loop: scan the square of radius r row by row, top to bottom. */
  method ScanSquare(m: GameMap, pos: Vec2, r: int) returns (found: bool, best: Vec2)
    requires m.Valid()
    ensures found ==> SearchSquare(m, pos, r, -r) == Some(best)
    ensures !found ==> SearchSquare(m, pos, r, -r) == None
  {
    found, best := false, pos;
    var dy := -r;
    while dy <= r && !found
      invariant found ==> SearchSquare(m, pos, r, -r) == Some(best)
      invariant !found ==> SearchSquare(m, pos, r, -r) == SearchSquare(m, pos, r, dy)
      decreases r + 1 - dy
    {
      found, best := ScanRow(m, pos, r, dy);
      dy := dy + 1;
    }
  }

  /** The outer loop: the squares of radius 0 to 6 around pos, stopping at the
      first walkable cell; pos itself when none is found. */
  method SpiralSearch(m: GameMap, pos: Vec2) returns (best: Vec2)
    requires m.Valid()
    ensures best == SearchRings(m, pos, 0).GetOr(pos)
  {
    best := pos;
    var found := false;
    var r := 0;
    while r <= 6 && !found
      invariant 0 <= r <= 7
      invariant found ==> SearchRings(m, pos, 0) == Some(best)
      invariant !found ==> best == pos && SearchRings(m, pos, 0) == SearchRings(m, pos, r)
    {
      var hit;
      found, hit := ScanSquare(m, pos, r);
      if found {
        best := hit;
      }
      r := r + 1;
    }
  }

  /** The entity table with every merchant removed. */
  function NonMerchants(es: map<string, Entity>): (r: map<string, Entity>)
    ensures forall k | k in r :: k in es && r[k] == es[k] && r[k].kind != Merchant
    ensures forall k | k in es && es[k].kind != Merchant :: k in r
  {
    map k | k in es && es[k].kind != Merchant :: es[k]
  }

  function MerchantKeys(es: map<string, Entity>): set<string> {
    set k | k in es && es[k].kind == Merchant
  }

  /** After the old merchants are removed and one is added, the table holds
      exactly one merchant, and every other entity is kept. */
  lemma OneMerchantAfterPlacement(es: map<string, Entity>, uid: string, pos: Vec2)
    ensures var after := NonMerchants(es)[uid := Entity(uid, Merchant, pos, 1, None)];
      MerchantKeys(after) == {uid} &&
      forall k | k in es && k != uid && es[k].kind != Merchant :: k in after && after[k] == es[k]
  {
  }

  // ---------------------------------------------------------------------------
  // Fresh ids (NewUID)

  ghost function LongestKey(ks: set<string>): (n: nat)
    ensures forall k | k in ks :: |k| <= n
    decreases |ks|
  {
    if ks == {} then 0
    else
      var k := PickKey(ks);
      var rest := LongestKey(ks - {k});
      if |k| > rest then |k| else rest
  }

  ghost function PickKey(ks: set<string>): (k: string)
    requires ks != {}
    ensures k in ks
  {
    var k :| k in ks; k
  }

  /** There is always an id not yet in use: a finite table cannot hold them all. */
  lemma FreshIdExists(used: set<string>)
    ensures exists u :: u !in used
  {
    var u := seq(LongestKey(used) + 1, _ => 'x');
    assert u !in used;
  }

  /** NewUID as an oracle: some id not in `used`. */
  method NewUid(used: set<string>) returns (u: string)
    ensures u !in used
  {
    FreshIdExists(used);
    u :| u !in used;
  }

  /** The table after a merchant is placed at spot under a fresh uid. */
  ghost predicate MerchantPlaced(before: map<string, Entity>, after: map<string, Entity>, spot: Vec2) {
    exists uid | uid !in before :: after == NonMerchants(before)[uid := Entity(uid, Merchant, spot, 1, None)]
  }

  /** The player table after refreshAllPlayersShopStockForPhase: a new stock
      for every player and the free refresh available again. */
  function Restocked(p: Player, phaseIdx: int, generate: (int, string) -> seq<string>): Player {
    p.(shopStock := generate(phaseIdx, p.tactic), shopFreeRefreshUsedPhase := 0)
  }

  function RefreshedShops(ps: map<string, Player>, phaseIdx: int,
                          generate: (int, string) -> seq<string>): (r: map<string, Player>)
    ensures r.Keys == ps.Keys
  {
    map s | s in ps :: Restocked(ps[s], phaseIdx, generate)
  }

  /** After the phase restock every player holds the stock generated for their
      tactic, and their next refresh in any loot phase (numbered from 1) is the
      free one: it leaves their funds alone. */
  lemma RestockGrantsFreeRefresh(cfg: ConfigData, ps: map<string, Player>, phaseIdx: int,
                                 generate: (int, string) -> seq<string>, sid: string,
                                 phase: int, stock: seq<string>)
    requires sid in ps && phase != 0
    ensures var q := RefreshedShops(ps, phaseIdx, generate)[sid];
      q.shopStock == generate(phaseIdx, ps[sid].tactic) &&
      ShopRefreshed(cfg, q, phase, stock) == Some(q.(shopFreeRefreshUsedPhase := phase, shopStock := stock))
  {
  }

  /** The loop of refreshAllPlayersShopStockForPhase over the player table. */
  method RestockAll(orig: map<string, Player>, phaseIdx: int, generate: (int, string) -> seq<string>)
    returns (ps: map<string, Player>)
    ensures ps == RefreshedShops(orig, phaseIdx, generate)
  {
    ps := orig;
    var keys := ps.Keys;
    while keys != {}
      invariant keys <= ps.Keys && ps.Keys == orig.Keys
      invariant forall s | s in ps :: ps[s] == if s in keys then orig[s] else Restocked(orig[s], phaseIdx, generate)
      decreases |keys|
    {
      var s :| s in keys;
      ps := ps[s := Restocked(orig[s], phaseIdx, generate)];
      keys := keys - {s};
    }
    assert ps == RefreshedShops(orig, phaseIdx, generate);
  }

  /** A new player as AddPlayer builds it at pos, before stats are recomputed. */
  function FreshPlayer(cfg: ConfigData, sid: string, pos: Vec2): Player {
    Player(sid, "Unknown", pos, Vec2(1.0, 0.0), BaseMaxHp(cfg), BaseMaxHp(cfg),
           ConfigReal(cfg.gameplay.baseViewRadius), true, false, "", [], BaseInventoryCap(cfg),
           0, [], 0, false)
  }

  // ---------------------------------------------------------------------------
  // The game state

  class GameState {
    var config: ConfigData
    var gameMap: GameMap
    var players: map<string, Player>
    var entities: map<string, Entity>
    var phase: int
    var phaseTimer: real
    var globalEvents: seq<GlobalEvent>

    ghost predicate Valid()
      reads this
    {
      gameMap.Valid() && |globalEvents| <= MaxEvents
    }

    /** NewGameState: a fresh map built from the configured size, no players
        or entities, the Init phase with the phase-1 timer, an empty log. */
    constructor (cfg: ConfigData)
      requires cfg.mapSection.width >= 0 && cfg.mapSection.height >= 0
      ensures Valid() && config == cfg
      ensures gameMap.width == cfg.mapSection.width && gameMap.height == cfg.mapSection.height
      ensures gameMap.Bordered()
      ensures players == map[] && entities == map[] && globalEvents == []
      ensures phase == PhaseInit && phaseTimer == cfg.phases.phase1.duration as real
    {
      var m := NewGameMap(cfg.mapSection.width, cfg.mapSection.height, ConfigReal(cfg.mapSection.wallDensity));
      config := cfg;
      gameMap := m;
      players := map[];
      entities := map[];
      phase := PhaseInit;
      phaseTimer := cfg.phases.phase1.duration as real;
      globalEvents := [];
    }

    /** addEvent. */
    method AddEvent(kind: string, msg: string)
      requires Valid()
      modifies this`globalEvents
      ensures Valid()
      ensures globalEvents == AppendEvent(old(globalEvents), GlobalEvent(kind, msg))
    {
      globalEvents := globalEvents + [GlobalEvent(kind, msg)];
      if |globalEvents| > MaxEvents {
        globalEvents := globalEvents[1..];
      }
    }

    /** spawnOrMoveMerchantForPhase: remove every merchant, then place one at
        the first walkable cell of the search around the phase's anchor. */
    method SpawnOrMoveMerchantForPhase(phaseIdx: int)
      requires Valid()
      modifies this`entities
      ensures Valid()
      ensures MerchantPlaced(old(entities), entities, MerchantSpot(gameMap, phaseIdx))
      ensures |MerchantKeys(entities)| == 1
    {
      var es := entities;
      var keys := es.Keys;
      while keys != {}
        invariant keys <= es.Keys <= entities.Keys
        invariant forall k | k in es :: k in entities && es[k] == entities[k]
        invariant forall k | k in es :: k in keys || es[k].kind != Merchant
        invariant forall k | k in entities && k !in keys && entities[k].kind != Merchant :: k in es
        decreases |keys|
      {
        var k :| k in keys;
        if es[k].kind == Merchant {
          es := es - {k};
        }
        keys := keys - {k};
      }
      assert es == NonMerchants(entities);

      var start := MerchantStart(gameMap.width, gameMap.height, phaseIdx);
      var best := SpiralSearch(gameMap, start);
      var uid := NewUid(entities.Keys);
      OneMerchantAfterPlacement(entities, uid, best);
      entities := es[uid := Entity(uid, Merchant, best, 1, None)];
    }

    /** refreshAllPlayersShopStockForPhase, with generateShopStock given as a
        function of the phase and the tactic. */
    method RefreshAllPlayersShopStockForPhase(phaseIdx: int, generate: (int, string) -> seq<string>)
      modifies this`players
      ensures players == RefreshedShops(old(players), phaseIdx, generate)
    {
      var ps := RestockAll(players, phaseIdx, generate);
      players := ps;
    }

    /** StartGame: the Search phase with its timer, the GAME_START event, the
        phase-1 merchant and fresh shop stocks. */
    method StartGame(generate: (int, string) -> seq<string>)
      requires Valid()
      modifies this`phase, this`phaseTimer, this`globalEvents, this`entities, this`players
      ensures Valid()
      ensures phase == PhaseSearch && phaseTimer == config.phases.phase1.duration as real
      ensures globalEvents == AppendEvent(old(globalEvents),
                GlobalEvent("GAME_START", "The Hunt Begins! Search for supplies."))
      ensures MerchantPlaced(old(entities), entities, MerchantSpot(gameMap, 1))
      ensures |MerchantKeys(entities)| == 1
      ensures players == RefreshedShops(old(players), 1, generate)
    {
      phase := PhaseSearch;
      phaseTimer := config.phases.phase1.duration as real;
      AddEvent("GAME_START", "The Hunt Begins! Search for supplies.");
      SpawnOrMoveMerchantForPhase(1);
      RefreshAllPlayersShopStockForPhase(1, generate);
    }

    /** HandleChooseTactic: only in the Init phase and for a known session;
        the tactic is validated and applied, and since the chooser is now
        ready the game starts. */
    method HandleChooseTactic(sid: string, tactic: string, generate: (int, string) -> seq<string>)
      returns (started: bool)
      requires Valid()
      modifies this`phase, this`phaseTimer, this`globalEvents, this`entities, this`players
      ensures Valid()
      ensures started <==> old(phase) == PhaseInit && sid in old(players)
      ensures !started ==> phase == old(phase) && players == old(players) &&
                           entities == old(entities) && globalEvents == old(globalEvents) &&
                           phaseTimer == old(phaseTimer)
      ensures started ==>
        phase == PhaseSearch && phaseTimer == config.phases.phase1.duration as real &&
        |MerchantKeys(entities)| == 1 &&
        players == RefreshedShops(old(players)[sid := WithTactic(config, old(players)[sid], tactic)],
                                  1, generate) &&
        globalEvents == AppendEvent(old(globalEvents),
                          GlobalEvent("GAME_START", "The Hunt Begins! Search for supplies.")) &&
        MerchantPlaced(old(entities), entities, MerchantSpot(gameMap, 1))
    {
      if phase != PhaseInit {
        return false;
      }
      if sid !in players {
        return false;
      }
      var ps := players[sid := WithTactic(config, players[sid], tactic)];
      ChooserIsReady(ps, sid);
      players := ps;
      var ready := CountReady(players);
      if ready >= 1 {
        StartGame(generate);
        return true;
      }
      return false;
    }

    /** HandleDropItem: a living player drops the item in a valid slot; it
        becomes an item-drop entity at the player's position. */
    method HandleDropItem(sid: string, slot: int)
      requires Valid()
      modifies this`entities, this`players
      ensures Valid()
      ensures (sid !in old(players) || !old(players)[sid].isAlive ||
               slot < 0 || slot >= |old(players)[sid].inventory|) ==>
              entities == old(entities) && players == old(players)
      ensures sid in old(players) && old(players)[sid].isAlive &&
              0 <= slot < |old(players)[sid].inventory| ==>
        var p := old(players)[sid];
        players == old(players)[sid := Dropped(config, p, slot)] &&
        exists uid | uid !in old(entities) ::
          entities == old(entities)[uid := Entity(uid, ItemDrop, p.pos, 1, Some(p.inventory[slot]))]
    {
      if sid !in players || !players[sid].isAlive {
        return;
      }
      var p := players[sid];
      if slot < 0 || slot >= |p.inventory| {
        return;
      }
      var item := p.inventory[slot];
      var uid := NewUid(entities.Keys);
      entities := entities[uid := Entity(uid, ItemDrop, p.pos, 1, Some(item))];
      players := players[sid := Dropped(config, p, slot)];
    }

    /** HandleSellItem: a living player next to a merchant sells the item in
        a valid slot. */
    method HandleSellItem(sid: string, slot: int)
      requires Valid()
      modifies this`players
      ensures Valid()
      ensures players == (
        if sid in old(players) && old(players)[sid].isAlive &&
           0 <= slot < |old(players)[sid].inventory| &&
           MerchantWithin(entities, old(players)[sid].pos)
        then old(players)[sid := Sold(config, old(players)[sid], slot)]
        else old(players))
    {
      if sid !in players || !players[sid].isAlive {
        return;
      }
      var p := players[sid];
      if slot < 0 || slot >= |p.inventory| {
        return;
      }
      var near := AnyMerchantWithin(entities, p.pos);
      if !near {
        return;
      }
      players := players[sid := Sold(config, p, slot)];
    }

    /** HandleBuyItem: a living player next to a merchant buys an item of the
        current shop stock, priced from the catalogue, if it is affordable and
        a slot is free.  The bought item gets a fresh uid. */
    method HandleBuyItem(sid: string, itemId: string, itemDb: seq<Item>)
      requires Valid()
      modifies this`players
      ensures Valid()
      ensures sid !in old(players) ==> players == old(players)
      ensures sid in old(players) ==>
        var p := old(players)[sid]; var it := FirstWithId(itemDb, itemId);
        if p.isAlive && MerchantWithin(entities, p.pos) && itemId in p.shopStock &&
           it.Some? && CanBuy(p, PurchaseCost(it.value))
        then exists u :: players == old(players)[sid := Bought(config, p, it.value.(uid := u))]
        else players == old(players)
    {
      if sid !in players || !players[sid].isAlive {
        return;
      }
      var p := players[sid];
      var near := AnyMerchantWithin(entities, p.pos);
      if !near {
        return;
      }
      var allowed := StockContains(p.shopStock, itemId);
      if !allowed {
        return;
      }
      var target := FindCatalogueItem(itemDb, itemId);
      if target.None? {
        return;
      }
      var cost := PurchaseCost(target.value);
      if p.funds >= cost && |p.inventory| < p.inventoryCap {
        var u := NewUid(entities.Keys);
        players := players[sid := Bought(config, p, target.value.(uid := u))];
      }
    }

    /** HandleShopRefresh: outside the Init phase, a living player next to a
        merchant gets a new stock; the first refresh of each phase is free,
        later ones are charged or refused.  The loot phase index and
        generateShopStock are given. */
    method HandleShopRefresh(sid: string, lootPhaseIdx: int, generate: (int, string) -> seq<string>)
      requires Valid()
      modifies this`players
      ensures Valid()
      ensures sid !in old(players) ==> players == old(players)
      ensures sid in old(players) ==>
        var p := old(players)[sid];
        var r := ShopRefreshed(config, p, phase, generate(lootPhaseIdx, p.tactic));
        if phase != PhaseInit && p.isAlive && MerchantWithin(entities, p.pos) && r.Some?
        then players == old(players)[sid := r.value]
        else players == old(players)
    {
      if phase == PhaseInit {
        return;
      }
      if sid !in players || !players[sid].isAlive {
        return;
      }
      var p := players[sid];
      var near := AnyMerchantWithin(entities, p.pos);
      if !near {
        return;
      }
      var free := p.shopFreeRefreshUsedPhase != phase;
      if free {
        p := p.(shopFreeRefreshUsedPhase := phase);
      } else {
        var cost := RefreshCost(config);
        if p.funds < cost {
          return;
        }
        p := p.(funds := p.funds - cost);
      }
      p := p.(shopStock := generate(lootPhaseIdx, p.tactic));
      players := players[sid := p];
    }

    /** AddPlayer: a known session resumes its record (only the disconnected
        flag is cleared); a new one gets a fresh record on a random empty cell. */
    method AddPlayer(sid: string) returns (p: Player)
      requires Valid()
      requires sid !in players ==> HasOpenInterior(gameMap)
      modifies this`players
      ensures Valid()
      ensures sid in old(players) ==>
        p == old(players)[sid].(disconnected := false) && players == old(players)[sid := p]
      ensures sid !in old(players) ==>
        p == Recalculated(config, FreshPlayer(config, sid, p.pos)) &&
        IsWalkable(gameMap, p.pos.x, p.pos.y) && players == old(players)[sid := p]
    {
      if sid in players {
        p := players[sid].(disconnected := false);
        players := players[sid := p];
        return;
      }
      var spawn := GetRandomSpawnPos(gameMap);
      p := Recalculated(config, FreshPlayer(config, sid, spawn));
      players := players[sid := p];
    }

    /** ProcessExtraction for the player of session sid: the payout loop, the
        extracted record and the EXTRACTION event (saving to storage is not
        modelled). */
    method ProcessExtraction(sid: string)
      requires Valid() && sid in players
      modifies this`players, this`globalEvents
      ensures Valid()
      ensures var p := old(players)[sid];
        players == old(players)[sid := Extracted(p, LootValue(p.inventory))] &&
        globalEvents == AppendEvent(old(globalEvents), GlobalEvent("EXTRACTION",
          p.name + " escaped with $" + IntToString(LootValue(p.inventory)) + "!"))
    {
      var p := players[sid];
      var loot := 0;
      var i := 0;
      while i < |p.inventory|
        invariant 0 <= i <= |p.inventory|
        invariant loot == LootValue(p.inventory[..i])
      {
        var item := p.inventory[i];
        var val := item.value;
        if val == 0 {
          val := 50 * item.tier;
        }
        assert p.inventory[..i + 1][..i] == p.inventory[..i];
        loot := loot + val;
        i := i + 1;
      }
      assert p.inventory[..i] == p.inventory;
      players := players[sid := Extracted(p, loot)];
      AddEvent("EXTRACTION", p.name + " escaped with $" + IntToString(loot) + "!");
    }
  }
}
