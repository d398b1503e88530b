/** Per-observer visibility (backend/logic/aoi.go): a radius gate, a 90-degree
    view cone and a line-of-sight test over the tile grid. */
module Aoi {
  import opened Geometry
  import opened Wrappers
  import opened Entities
  import opened Maze
  import opened Cone

  /** The look direction used for the cone: a zero vector means (1, 0). */
  function EffectiveLook(look: Vec2): Vec2 {
    if LenSq(look) == 0.0 then Vec2(1.0, 0.0) else look
  }

  /** The inConeAndLOS closure: radius gate, then the observer's own position
      is always visible, then the cone, then line of sight (skipped when there
      is no map). */
  predicate InConeAndLos(observer: Player, gameMap: Option<GameMap>, target: Vec2): (visible: bool)
    requires gameMap.Some? ==> gameMap.value.Valid()
    ensures LenSq(Sub(target, observer.pos)) > Sq(observer.viewRadius) ==> !visible
    ensures target == observer.pos ==> visible
    ensures (gameMap.None? && LenSq(Sub(target, observer.pos)) <= Sq(observer.viewRadius) &&
             InCone(Sub(target, observer.pos), EffectiveLook(observer.lookDir))) ==> visible
    ensures (gameMap.Some? && 0.0 < LenSq(Sub(target, observer.pos)) <= Sq(observer.viewRadius) &&
             InCone(Sub(target, observer.pos), EffectiveLook(observer.lookDir))) ==>
              (visible <==> LineOfSight(gameMap.value, observer.pos, target))
    ensures visible && LenSq(Sub(target, observer.pos)) > 0.0 ==>
              InCone(Sub(target, observer.pos), EffectiveLook(observer.lookDir))
  {
    SqNonNegative(observer.viewRadius);
    SqIsProduct(0.0);
    var d := Sub(target, observer.pos);
    var r := observer.viewRadius;
    if LenSq(d) > Sq(r) then false
    else if LenSq(d) == 0.0 then true
    else if !InCone(d, EffectiveLook(observer.lookDir)) then false
    else if gameMap.None? then true
    else LineOfSight(gameMap.value, observer.pos, target)
  }

  /** Growing the view radius never hides anything. */
  lemma VisibleMonotoneInRadius(observer: Player, gameMap: Option<GameMap>, target: Vec2, r2: real)
    requires gameMap.Some? ==> gameMap.value.Valid()
    requires 0.0 <= observer.viewRadius <= r2
    requires InConeAndLos(observer, gameMap, target)
    ensures InConeAndLos(observer.(viewRadius := r2), gameMap, target)
  {
    SqMonotone(observer.viewRadius, r2);
  }

  /** A target behind the observer (negative component along the look
      direction) is never visible unless it sits on the observer's position. */
  lemma BehindIsInvisible(observer: Player, gameMap: Option<GameMap>, target: Vec2)
    requires gameMap.Some? ==> gameMap.value.Valid()
    requires Dot(Sub(target, observer.pos), EffectiveLook(observer.lookDir)) < 0.0
    ensures !InConeAndLos(observer, gameMap, target)
  {
    var d := Sub(target, observer.pos);
    assert d.x != 0.0 || d.y != 0.0;
    LenSqPositive(d);
  }

  /** Which players GetVisibleEntities returns: not the observer itself, alive,
      and passing the three gates. */
  predicate PlayerVisible(observer: Player, gameMap: Option<GameMap>, p: Player)
    requires gameMap.Some? ==> gameMap.value.Valid()
  {
    p.sessionId != observer.sessionId && p.isAlive && InConeAndLos(observer, gameMap, p.pos)
  }

  /** The visible entities, in input order. */
  function VisibleEntities(observer: Player, gameMap: Option<GameMap>, es: seq<Entity>): seq<Entity>
    requires gameMap.Some? ==> gameMap.value.Valid()
  {
    if es == [] then []
    else
      var last := es[|es| - 1];
      VisibleEntities(observer, gameMap, es[..|es| - 1]) +
      (if InConeAndLos(observer, gameMap, last.pos) then [last] else [])
  }

  /** Filtering a concatenation filters each part in turn: visible entities
      keep their relative input order. */
  lemma {:induction false} VisibleEntitiesAppend(observer: Player, gameMap: Option<GameMap>, a: seq<Entity>, b: seq<Entity>)
    requires gameMap.Some? ==> gameMap.value.Valid()
    ensures VisibleEntities(observer, gameMap, a + b) ==
            VisibleEntities(observer, gameMap, a) + VisibleEntities(observer, gameMap, b)
    decreases |b|
  {
    if b == [] {
      assert a + b == a;
    } else {
      var b' := b[..|b| - 1];
      assert (a + b)[..|a + b| - 1] == a + b';
      VisibleEntitiesAppend(observer, gameMap, a, b');
    }
  }

  /** Exactly the entities that pass the gates are returned. */
  lemma {:induction false} VisibleEntitiesExact(observer: Player, gameMap: Option<GameMap>, es: seq<Entity>)
    requires gameMap.Some? ==> gameMap.value.Valid()
    ensures forall e :: e in VisibleEntities(observer, gameMap, es) <==>
                          e in es && InConeAndLos(observer, gameMap, e.pos)
    ensures |VisibleEntities(observer, gameMap, es)| <= |es|
  {
    if es != [] {
      VisibleEntitiesExact(observer, gameMap, es[..|es| - 1]);
      assert es == es[..|es| - 1] + [es[|es| - 1]];
    }
  }

  /** GetVisibleEntities.  Go ranges over the player map in an unspecified
      order, so the players are visited in a nondeterministic order; the ghost
      result keys names the map entry each visible player came from. */
  method GetVisibleEntities(observer: Player, gameMap: Option<GameMap>,
                            allPlayers: map<string, Player>, allEntities: seq<Entity>)
    returns (visiblePlayers: seq<Player>, visibleEntities: seq<Entity>, ghost keys: seq<string>)
    requires gameMap.Some? ==> gameMap.value.Valid()
    ensures forall p :: p in visiblePlayers ==> p in allPlayers.Values && PlayerVisible(observer, gameMap, p)
    ensures forall p :: p in visiblePlayers ==> p.sessionId != observer.sessionId && p.isAlive
    ensures forall k :: k in allPlayers && PlayerVisible(observer, gameMap, allPlayers[k]) ==>
                          allPlayers[k] in visiblePlayers
    ensures |visiblePlayers| <= |allPlayers|
    ensures |keys| == |visiblePlayers|
    ensures forall i, j | 0 <= i < j < |keys| :: keys[i] != keys[j]
    ensures forall i | 0 <= i < |keys| :: keys[i] in allPlayers && visiblePlayers[i] == allPlayers[keys[i]]
    ensures forall k :: k in keys <==> k in allPlayers && PlayerVisible(observer, gameMap, allPlayers[k])
    ensures visibleEntities == VisibleEntities(observer, gameMap, allEntities)
  {
    visiblePlayers := [];
    visibleEntities := [];
    keys := [];

    var todo := allPlayers.Keys;
    while todo != {}
      invariant todo <= allPlayers.Keys
      invariant |keys| == |visiblePlayers|
      invariant forall i, j | 0 <= i < j < |keys| :: keys[i] != keys[j]
      invariant forall i | 0 <= i < |keys| :: keys[i] in allPlayers && keys[i] !in todo &&
                  visiblePlayers[i] == allPlayers[keys[i]]
      invariant forall k :: k in keys ==> PlayerVisible(observer, gameMap, allPlayers[k])
      invariant forall k :: k in allPlayers && k !in todo && PlayerVisible(observer, gameMap, allPlayers[k]) ==>
                            k in keys
      invariant |visiblePlayers| + |todo| <= |allPlayers.Keys|
      decreases todo
    {
      var k :| k in todo;
      todo := todo - {k};
      var p := allPlayers[k];
      if p.sessionId == observer.sessionId {
        continue;
      }
      if p.isAlive && InConeAndLos(observer, gameMap, p.pos) {
        visiblePlayers := visiblePlayers + [p];
        keys := keys + [k];
      }
    }
    forall k | k in allPlayers && PlayerVisible(observer, gameMap, allPlayers[k])
      ensures allPlayers[k] in visiblePlayers
    {
      var i :| 0 <= i < |keys| && keys[i] == k;
      assert visiblePlayers[i] == allPlayers[k];
    }

    var i := 0;
    while i < |allEntities|
      invariant 0 <= i <= |allEntities|
      invariant visibleEntities == VisibleEntities(observer, gameMap, allEntities[..i])
    {
      var e := allEntities[i];
      assert allEntities[..i + 1][..i] == allEntities[..i];
      if InConeAndLos(observer, gameMap, e.pos) {
        visibleEntities := visibleEntities + [e];
      }
      i := i + 1;
    }
    assert allEntities[..i] == allEntities;
  }
}
