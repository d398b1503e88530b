/** The records the server's game state works on, as backend/logic/gamestate.go
    uses them (the older struct definitions in types.go lack several of these
    fields). */
module Entities {
  import opened Geometry
  import opened Wrappers

  /** Entity type tags.  The source uses string constants; only their
      distinctness matters to the model. */
  datatype EntityKind = PlayerKind | ItemDrop | Motor | Exit | Merchant | SupplyDrop

  /** An inventory item: catalogue id, sale value, tier and weight. */
  datatype Item = Item(uid: string, id: string, kind: string, value: int, tier: int, weight: real)

  /** A world object; a dropped item carries the item it holds. */
  datatype Entity = Entity(uid: string, kind: EntityKind, pos: Vec2, state: int, extra: Option<Item>)

  /** The fields of the server's player record that the modelled operations
      read or write. */
  datatype Player = Player(
    sessionId: string,
    name: string,
    pos: Vec2,
    lookDir: Vec2,
    hp: real,
    maxHp: real,
    viewRadius: real,
    isAlive: bool,
    isExtracted: bool,
    tactic: string,
    inventory: seq<Item>,
    inventoryCap: int,
    funds: int,
    shopStock: seq<string>,
    shopFreeRefreshUsedPhase: int,
    disconnected: bool)
}
