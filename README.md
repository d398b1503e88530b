# Echo Trace: a verified model of the game server core and client state

Echo Trace is a small multiplayer extraction game. A Go server holds rooms. Each room runs a game state:
- a tile maze, players and entities;
- a phase;
- a merchant;
- a bounded event log.

Python clients connect over a websocket. This project models the sequential core of both sides in Dafny and proves what the code promises:

- **Maze** (`maze.dfy`): map construction with wall borders, `IsWalkable` with Go's truncating `int()`, and the spawn choice. `HasLineOfSight` is modelled both as the source's loop and as a step function whose trace is a 4-connected path.
- **Aoi** and **Cone** (`aoi.dfy`, `cone.dfy`): the per-observer visibility filter, made of three gates:
  - the view radius;
  - a 90-degree cone, stated without square roots;
  - line of sight.
- **Physics** (`physics.dfy`): circle-versus-tile overlap, the tile scan of `checkCollision`, and the slide order of `ResolveMovement`.
- **ConfigValidation** (`config.dfy`): `clampInt`, `clampFloat` with NaN, and `ClampGameConfig`, which works in place on a `GameConfig` object. Also proved: the bounds, the two cross-field rules, "in range is left alone", and idempotence.
- **PlayerRules** and **GameLogic** (`player_rules.dfy`, `gamestate.dfy`): the game-state class and its handlers:
  - tactic choice and game start;
  - merchant placement by spiral search;
  - drop, sell, buy and shop refresh;
  - joining and resuming;
  - extraction;
  - the five-entry event log.
- **RoomRegistry** (`manager.dfy`): the room table with unique names, room creation, the lookups, the lobby listing and the default configuration.
- **ClientSession** (`client.dfy`): the server-side client:
  - frame decoding and dispatch in `readPump`;
  - `handleCreateRoom`, `handleJoinRoom` and `handleListRooms`;
  - the order of everything pushed to the `Send`, `Register`, `Unregister` and input channels, recorded as one output sequence.
- **ClientGameState**, **ClientNetwork** and **ItemManual** (`client_state.dfy`, `client_network.dfy`, `item_manual.dfy`): the Python client's snapshot merge, its connection and rejoin state, and the item manual tables with their lookups.
- **Supporting modules**: Geometry, Text, JsonValues, Entities and Wrappers.
  - Positions are reals.
  - Go's `int(x)` is truncation toward zero.
  - JSON values are a datatype.
  - `strings.TrimSpace` and decimal formatting are defined and proved.

Notes on the code's behaviour:
- The Python client computes no visibility of its own. The server decides what each player sees, and the renderer draws a circular fog.
- `update_from_server` reads only the `self` and `vision` blocks of a snapshot. The `vision` block replaces `players` and leaves `entities` alone.
- A move packet whose `dir` lacks a numeric `x` or `y` makes the server panic (see Findings).

## Model

| member | source | states |
|---|---|---|
| Maze.NewGameMap | backend/logic/maze.go:21-45 | Height rows of Width tiles. Every border cell is a wall. Every tile is 0 or 1, never a wall at density <= 0 and always a wall at density >= 1. |
| Maze.WalkableAtCellCentre | backend/logic/maze.go:48-57 | At a cell centre, IsWalkable is true iff the cell is in the grid and empty. |
| Maze.WalkableInsideBorder | backend/logic/maze.go:48-57 | On a map with wall borders, a walkable point lies strictly inside the border cells. |
| Maze.IsWalkable | backend/logic/maze.go:48-57 | The point's cell, found by truncating both coordinates, is in the grid and empty. A walkable point has both coordinates in (-1, W) and (-1, H). |
| Maze.GetRandomSpawnPos | backend/logic/maze.go:59-67 | Returns (x+0.5, y+0.5) for an empty cell with 1 <= x <= W-2 and 1 <= y <= H-2, and that point is walkable. |
| Maze.AdvanceMovesOneCell | backend/logic/maze.go:155-161 | Each loop iteration moves exactly one cell along exactly one axis, and the cursor stays well formed. |
| Maze.WalkTrace | backend/logic/maze.go:153-174 | The traversal enters at most W*H+8 cells along a 4-connected path. Every cell before the last is in the grid, open and not the end. It answers true iff the last cell is the end cell and is open. |
| Maze.StartCursorOk | backend/logic/maze.go:92-150 | The set-up gives unit or zero steps, with infinite crossings exactly on the axes the ray does not move along. |
| Maze.LineOfSightMeansClearPath | backend/logic/maze.go:119-171 | True between different cells means a chain of open in-grid cells from the start cell to the end cell. The start cell is never checked. |
| Maze.LineOfSightFalseMeansNotReached | backend/logic/maze.go:153-174 | False between different in-grid cells means the end cell was not entered as an open cell within the step bound. |
| Maze.AxisStart | backend/logic/maze.go:92-150 | The per-axis step sign, first crossing and crossing spacing, with +Inf for an axis the ray does not move along. |
| Maze.SetUpCursor | backend/logic/maze.go:80-150 | The start cell and both axes' set-up, equal to the StartCursor function. |
| Maze.Traverse | backend/logic/maze.go:153-174 | The loop returns exactly the step function's answer for W*H+8 steps. |
| Maze.HasLineOfSight | backend/logic/maze.go:71-175 | False when an endpoint is negative or at or beyond W/H. True without reading any tile when both endpoints share a cell. Otherwise it is the traversal's answer. |
| Maze.LineOfSight | backend/logic/maze.go:71-175 | The answer HasLineOfSight computes. True only when both endpoints are inside the map. Always true for two inside points in the same cell, without reading a tile. |
| Aoi.InConeAndLos | backend/logic/aoi.go:38-62 | The closure's gates in order. A target beyond the view radius is invisible. A target at the observer's own position is visible. With no map, a target within the radius and in the cone is visible. With a map, such a target at a non-zero distance is visible iff there is line of sight. A visible target at a non-zero distance is in the cone. |
| Aoi.VisibleMonotoneInRadius | backend/logic/aoi.go:38-62 | A larger view radius never hides a target that was visible. |
| Aoi.BehindIsInvisible | backend/logic/aoi.go:45-56 | A target with a negative component along the look direction is rejected by the cone. |
| Aoi.VisibleEntitiesAppend | backend/logic/aoi.go:74-79 | The entity filter distributes over concatenation, so input order is kept. |
| Aoi.VisibleEntitiesExact | backend/logic/aoi.go:74-79 | An entity is returned iff it passes the radius, cone and line-of-sight gates, and no more entities come out than went in. |
| Aoi.GetVisibleEntities | backend/logic/aoi.go:22-82 | Visible players are exactly the table's players that are not the observer, are alive and pass the gates, each map entry at most once: a ghost key sequence without repeats names each returned player's entry, and its keys are exactly the visible ones. Visible entities are the filtered input in order. |
| Cone.ConeTestScale | backend/logic/aoi.go:29-56 | Scaling the look vector by k > 0 does not change the squared cone test. |
| Cone.InConeScaleInvariant | backend/logic/aoi.go:29-36 | The cone test is independent of the look vector's length, so normalising it changes nothing. |
| Cone.DefaultConeIsQuarterPlane | backend/logic/aoi.go:26-32 | With the default look (1,0), the cone is the 90-degree quarter plane x >= abs(y). |
| Cone.ConeTestIsCosineTest | backend/logic/aoi.go:26-56 | For positive lengths a = abs(d) and b = abs(look), and c = cos(45 degrees) (2c^2 = 1), the squared cone test holds iff the source's comparison of normalised vectors d.look >= c a b holds. |
| Physics.ClampIsNearest | backend/logic/physics.go:63-64 | Clamping a coordinate into [t, t+1] gives the nearest point of the tile along that axis. |
| Physics.CircleAABB | backend/logic/physics.go:61-70 | A circle of radius 0 overlaps no tile. A circle whose centre lies in the tile overlaps it iff its radius is not 0. |
| Physics.CentreInOwnTile | backend/logic/physics.go:61-70 | A centre inside the tile is its own closest point: the clamped distance is 0. |
| Physics.CircleAABBIsOverlap | backend/logic/physics.go:61-70 | CircleAABB is true iff some point of the tile is closer than r to the centre. |
| Physics.Collides | backend/logic/physics.go:34-58 | What checkCollision answers: out of bounds, or a wall overlap in a scanned row. A circle that does not collide lies within [r, W-r] x [r, H-r]. |
| Physics.CheckCollision | backend/logic/physics.go:34-58 | Answers true iff the circle pokes out of the map bounds, or a non-walkable tile in the scanned index range overlaps it. |
| Physics.ScanRow | backend/logic/physics.go:48-55 | The inner loop reports a wall overlap in its row iff there is one. |
| Physics.OverlapWithinScanRange | backend/logic/physics.go:42-45 | A tile the circle overlaps lies inside the truncated scan range. |
| Physics.NoCollisionMeansNoWallOverlap | backend/logic/physics.go:34-58 | When checkCollision says no, no wall tile anywhere overlaps the circle. |
| Physics.NoCollisionStandsOnWalkable | backend/logic/physics.go:34-58 | A circle of positive radius that does not collide has its centre on a walkable cell. |
| Physics.OwnTileOverlapped | backend/logic/physics.go:61-70 | A circle of positive radius overlaps the tile under its centre. |
| Physics.ResolveMovement | backend/logic/physics.go:8-32 | Tries the full move, then X only, then Y only, then stays put. A result other than pos does not collide, and a non-colliding start never ends colliding. |
| Geometry.TruncBounds | backend/logic/maze.go:50-51 | Go's int() is floor on non-negative values, is within one of its argument and is 0 on (-1, 1). |
| Geometry.LenSqScale | backend/logic/aoi.go:34-35 | Scaling a vector by k scales its squared length by k squared. |
| ConfigValidation.ClampInt | backend/logic/config_validation.go:5-13 | With minV <= maxV the result is in [minV, maxV]. A value already inside is unchanged, and one below becomes minV. |
| ConfigValidation.ClampFloat | backend/logic/config_validation.go:15-26 | As ClampInt, and NaN becomes minV. |
| ConfigValidation.ClampConfig | backend/logic/config_validation.go:30-129 | The value ClampGameConfig leaves. Safe slots never exceed the inventory size, and required motors never exceed spawned motors. |
| ConfigValidation.ClampConfigInRange | backend/logic/config_validation.go:35-128 | After clamping every field is in its bound, SafeSlotCount <= InventorySize and MotorsRequiredToOpenExit <= MotorsSpawnCount. |
| ConfigValidation.ClampConfigKeepsValid | backend/logic/config_validation.go:30-129 | A configuration already within every bound is left unchanged. |
| ConfigValidation.ClampConfigIdempotent | backend/logic/config_validation.go:30-129 | Clamping twice equals clamping once. |
| ConfigValidation.GameConfig.Clone | backend/network/manager.go:37-38 | The struct copy is a fresh object holding the same value. |
| ConfigValidation.ClampGameConfig | backend/logic/config_validation.go:30-129 | nil is left alone. Otherwise the object's new value is the clamped old value. |
| PlayerRules.LootValueAppend | backend/logic/gamestate.go:595-603 | The extraction payout is additive over the inventory. |
| PlayerRules.LootValueNonNegative | backend/logic/gamestate.go:595-603 | Items with non-negative Value and Tier pay a non-negative amount. |
| PlayerRules.SaleValue | backend/logic/gamestate.go:260-263 | A set Value is paid as is, and an item with a non-negative Value always sells for a positive amount. |
| PlayerRules.PurchaseCost | backend/logic/gamestate.go:322-326 | A positive Value is the price. Otherwise the price is 50 per tier, so an item with a positive Value or tier is never free. |
| PlayerRules.RemoveSlot | backend/logic/gamestate.go:228 | Splicing out a slot keeps the other items in order and removes exactly that item (multiset). |
| PlayerRules.LootValueRemoveSlot | backend/logic/gamestate.go:595-603 | Splicing out an item removes exactly its payout. |
| PlayerRules.NormalizeTactic | backend/logic/gamestate.go:79-82 | RECON, DEFENSE and TRAP are kept. Anything else becomes RECON. |
| PlayerRules.Recalculated | backend/logic/gamestate.go:473-567 | Recomputes only the capacity (fallback 6), maximum HP (fallback 100, times the tactic multiplier) and view radius. Capacity and maximum HP are always positive. The view radius has no fallback and is positive once the gameplay section is within its clamped bounds (base view radius in [1, 20]). Nothing else changes. |
| PlayerRules.RecalculatedIdempotent | backend/logic/gamestate.go:473-567 | Recalculating twice equals recalculating once. |
| PlayerRules.WithTactic | backend/logic/gamestate.go:79-88 | The validated tactic is set, HP <= MaxHP afterwards, and inventory, funds and position are unchanged. |
| PlayerRules.Dropped | backend/logic/gamestate.go:216-229 | The player after a drop: funds, position and tactic kept, and the inventory loses exactly the dropped item (multiset). |
| PlayerRules.Sold | backend/logic/gamestate.go:259-267 | The player after a sale: funds rise by the sale value, strictly for a non-negative Value, and the inventory loses exactly the sold item. |
| PlayerRules.Bought | backend/logic/gamestate.go:322-335 | The player after a purchase: the item is added (multiset) as the last slot, funds fall by the price, and an affordable purchase leaves funds non-negative. |
| PlayerRules.DropLosesItemWorth | backend/logic/gamestate.go:216-229 | Dropping loses exactly the item's payout, keeps funds, and keeps the other items in order. |
| PlayerRules.SellPreservesNetWorth | backend/logic/gamestate.go:259-267 | Selling an item with a set Value raises funds by it and keeps the player's worth. |
| PlayerRules.BuyKeepsBounds | backend/logic/gamestate.go:322-335 | Buying what is affordable leaves funds non-negative and the inventory within capacity, with the item appended last. |
| PlayerRules.BuyThenSellRestores | backend/logic/gamestate.go:259-335 | Buying an item with positive Value and selling it back restores funds and inventory. |
| PlayerRules.BuyPreservesNetWorth | backend/logic/gamestate.go:322-335 | Buying converts funds into an equal payout. |
| PlayerRules.RefreshCost | backend/logic/gamestate.go:372-375 | The paid refresh costs the configured amount, or 120 when it is not positive. |
| PlayerRules.ShopRefreshed | backend/logic/gamestate.go:367-382 | The first refresh of a phase is free and records the phase. Later ones are charged, or refused without touching funds when funds are short. Funds never become negative. |
| PlayerRules.SecondRefreshIsCharged | backend/logic/gamestate.go:367-380 | A second refresh in the same phase is charged or refused. |
| PlayerRules.Extracted | backend/logic/gamestate.go:594-609 | The player after extraction: funds rise by the payout, nothing is left to extract, and the player is extracted and out of play. |
| PlayerRules.ExtractionPaysNetWorth | backend/logic/gamestate.go:594-609 | Extraction turns the player's whole worth into funds. |
| GameLogic.AppendEvent | backend/logic/gamestate.go:968-973 | The new event goes last, and at most five are kept by dropping the oldest. |
| GameLogic.AppendEventIsLastN | backend/logic/gamestate.go:968-973 | One addEvent keeps the latest five entries. |
| GameLogic.AppendEventsKeepsLatest | backend/logic/gamestate.go:968-973 | Any run of addEvent calls leaves exactly the latest five of everything seen, oldest first. |
| GameLogic.ReachIsSquaredTest | backend/logic/gamestate.go:247-253 | Distance <= 3.0 agrees with the squared test against 9. |
| GameLogic.AnyMerchantWithin | backend/logic/gamestate.go:247-253 | The loop answers true iff some merchant entity is within reach. |
| GameLogic.StockContains | backend/logic/gamestate.go:294-300 | The loop answers true iff the id is in the shop stock. |
| GameLogic.FirstWithId | backend/logic/gamestate.go:308-316 | Finds the first catalogue item with the id, or none iff no item has it. |
| GameLogic.FindCatalogueItem | backend/logic/gamestate.go:308-316 | The ItemDB loop returns the first catalogue item with the id. |
| GameLogic.ChooserIsReady | backend/logic/gamestate.go:94-103 | A player who has just chosen a tactic makes the ready count at least one. |
| GameLogic.CountReady | backend/logic/gamestate.go:94-99 | The loop counts exactly the players with a tactic. |
| GameLogic.MerchantStart | backend/logic/gamestate.go:133-169 | The search centre is a whole-number cell inside the border. |
| GameLogic.SearchRowSpec | backend/logic/gamestate.go:176-183 | A row scan finds a walkable cell iff its row has one. |
| GameLogic.SearchSquareSpec | backend/logic/gamestate.go:175-184 | A square scan finds a walkable cell iff its rows have one. |
| GameLogic.SearchRingsSpec | backend/logic/gamestate.go:174-185 | The rings fail only when nothing within distance 6 is walkable. Otherwise nothing strictly nearer is walkable. |
| GameLogic.SearchFindsNearest | backend/logic/gamestate.go:171-185 | The search yields a walkable cell at the least Chebyshev distance, and fails iff nothing within 6 is walkable. |
| GameLogic.MerchantSpotIsNearestWalkable | backend/logic/gamestate.go:148-188 | The merchant stands on a nearest walkable cell, or on the centre when none is within 6. |
| GameLogic.MerchantStaysOnWalkableStart | backend/logic/gamestate.go:172-182 | A walkable centre is kept. |
| GameLogic.ScanRow | backend/logic/gamestate.go:176-183 | The innermost loop returns the row scan's result. |
| GameLogic.ScanSquare | backend/logic/gamestate.go:175-184 | The middle loop returns the square scan's result. |
| GameLogic.SpiralSearch | backend/logic/gamestate.go:172-185 | The search loops return the ring search's result, or the centre. |
| GameLogic.NonMerchants | backend/logic/gamestate.go:149-154 | Exactly the non-merchant entities are kept, unchanged. |
| GameLogic.OneMerchantAfterPlacement | backend/logic/gamestate.go:149-188 | After removal and placement, exactly one merchant remains and every other entity is kept. |
| GameLogic.FreshIdExists | backend/logic/item_system.go:18-20 | An id not yet in use always exists. |
| GameLogic.NewUid | backend/logic/item_system.go:18-20 | Returns an id not in the given set. |
| GameLogic.RefreshedShops | backend/logic/gamestate.go:192-201 | Every player is kept. |
| GameLogic.RestockGrantsFreeRefresh | backend/logic/gamestate.go:192-201 | After the restock, each player holds the stock generated for their tactic, and their next refresh in a loot phase is free. |
| GameLogic.RestockAll | backend/logic/gamestate.go:193-200 | The loop gives every player the generated stock and resets the free refresh. |
| GameLogic.GameState.constructor | backend/logic/gamestate.go:49-64 | A map of the configured size with wall borders, no players or entities, the Init phase, the phase-1 timer and an empty log. |
| GameLogic.GameState.AddEvent | backend/logic/gamestate.go:968-973 | The log becomes AppendEvent of the old log, and stays within five entries. |
| GameLogic.GameState.SpawnOrMoveMerchantForPhase | backend/logic/gamestate.go:148-190 | Every old merchant is removed and one is placed at the search's spot under a fresh uid. Exactly one merchant remains. |
| GameLogic.GameState.RefreshAllPlayersShopStockForPhase | backend/logic/gamestate.go:192-201 | The player table becomes the restocked table. |
| GameLogic.GameState.StartGame | backend/logic/gamestate.go:110-131 | Sets the Search phase and the phase-1 timer, logs GAME_START, places one merchant and restocks every shop. |
| GameLogic.GameState.HandleChooseTactic | backend/logic/gamestate.go:66-108 | Outside Init, or for an unknown session, returns false and changes nothing. Otherwise sets the validated tactic with HP <= MaxHP, starts the game (one ready player is enough) and returns true: Search phase, phase-1 timer, GAME_START logged, exactly one merchant and every shop restocked. |
| GameLogic.GameState.HandleDropItem | backend/logic/gamestate.go:203-231 | A missing or dead player, or a bad slot, changes nothing. Otherwise the slot is spliced out and one ITEM_DROP entity holding the item appears at the player's position under a fresh uid. |
| GameLogic.GameState.HandleSellItem | backend/logic/gamestate.go:233-269 | Only a living player next to a merchant, with a valid slot, sells. Funds rise by the value (50 if 0) and the slot is removed. Otherwise nothing changes. |
| GameLogic.GameState.HandleBuyItem | backend/logic/gamestate.go:271-338 | The purchase happens iff the player is alive, a merchant is near, the item is in stock and in the catalogue, funds cover the cost (Value, or 50*Tier) and a slot is free. Otherwise nothing changes. |
| GameLogic.GameState.HandleShopRefresh | backend/logic/gamestate.go:340-383 | Nothing happens in Init, for a missing or dead player, away from the merchant, or when a paid refresh is unaffordable. Otherwise ShopRefreshed applies. |
| GameLogic.GameState.AddPlayer | backend/logic/gamestate.go:398-448 | A known session resumes its record with only the disconnected flag cleared. A new one gets a fresh record on a walkable spawn cell. |
| GameLogic.GameState.ProcessExtraction | backend/logic/gamestate.go:594-615 | Funds rise by the inventory payout (fallback 50*Tier). The inventory is emptied, the player is extracted and not alive, the view radius is 100, and the EXTRACTION event is logged. |
| RoomRegistry.RoomIdInjective | backend/network/manager.go:69 | Different clock readings give different room ids. |
| RoomRegistry.RoomId | backend/network/manager.go:69 | The id starts with "room_" and carries a minus sign exactly for a negative clock reading. |
| RoomRegistry.NewRoom | backend/network/manager.go:71 | The new room has the given id, name and configuration, no clients, and a game phase. |
| RoomRegistry.InsertKeepsWellFormed | backend/network/manager.go:62-72 | Inserting a room with a free name keeps names unique and adds exactly its id. |
| RoomRegistry.InsertFreshAddsOne | backend/network/manager.go:69-72 | A fresh id grows the table by exactly one room. |
| RoomRegistry.Summarize | backend/network/manager.go:114-138 | The summary has phase -1 without a game and zeros without a configuration. Otherwise it copies the room's fields. |
| RoomRegistry.SummaryPhaseMarksMissingGame | backend/network/manager.go:115-123 | The phase is -1 iff the room has no game. |
| RoomRegistry.ListingCountsRooms | backend/network/manager.go:109-140 | A listing has one entry per room. |
| RoomRegistry.DistinctCard | backend/network/manager.go:110-139 | A sequence of distinct ids has as many elements as its set. |
| RoomRegistry.ConfigDefaults.constructor | backend/network/manager.go:20-21 | No default is set at start. |
| RoomRegistry.ConfigDefaults.SetDefaultConfig | backend/network/manager.go:25-33 | nil clears the default to the zero config. Otherwise the value is copied. |
| RoomRegistry.ConfigDefaults.DefaultConfigClone | backend/network/manager.go:35-41 | A fresh object holding the stored default, or the zero config. |
| RoomRegistry.RoomManager.constructor | backend/network/manager.go:43-47 | An empty table. |
| RoomRegistry.RoomManager.RoomNameTaken | backend/network/manager.go:49-56 | True iff some non-nil room has the name. |
| RoomRegistry.RoomManager.CreateRoom | backend/network/manager.go:58-76 | An empty or taken name fails with the table unchanged. Otherwise exactly one room is added under "room_" + the clock reading, and names stay unique. |
| RoomRegistry.RoomManager.GetRoom | backend/network/manager.go:78-82 | The room under the id, or none for a missing id or a nil entry. |
| RoomRegistry.RoomManager.GetRoomByName | backend/network/manager.go:84-93 | A room with the name iff one exists, and with unique names it is that room. |
| RoomRegistry.RoomManager.ListRoomSummaries | backend/network/manager.go:106-141 | One summary per non-nil room, each id once, nil entries skipped: as many entries as live rooms, each the summary of a room of the table. |
| ClientSession.Classify | backend/network/client.go:56-86 | Undecodable frames or a non-numeric type are skipped. 1010, 1011 and 1013 are room packets. Every other code is a game packet. |
| ClientSession.Request | backend/network/client.go:56-59 | json.Unmarshal into a map succeeds iff the frame is a JSON object (its members) or null (the empty map). |
| ClientSession.TypeCode | backend/network/client.go:61-65 | Present iff "type" is a number. A whole-number type is read exactly. |
| ClientSession.WithLook | backend/network/client.go:107-115 | HasLookDir is set iff look_dir has numeric x and y. |
| ClientSession.Move | backend/network/client.go:99-118 | Never panics. Forwards iff dir has numeric x and y, and carries them. |
| ClientSession.MoveAsWritten | backend/network/client.go:99-118 | As written, the move panics exactly when dir is an object lacking a numeric x or y. Whenever it does not panic it agrees with Move. |
| ClientSession.SlotPacket | backend/network/client.go:119-164 | Forwarded iff slot_index is numeric, truncated to int. |
| ClientSession.OtherPacket | backend/network/client.go:91-170 | The switch over the game packets other than the move never panics, forwards only with the client's session id, and ignores every code it does not list. |
| ClientSession.DecodeGame | backend/network/client.go:91-170 | Never panics, and a forwarded input carries the client's session id. |
| ClientSession.DecodeGameAsWritten | backend/network/client.go:91-170 | The in-game decoding as written: only the move packet can panic, and a forwarded input carries the client's session id. |
| ClientSession.DecodeGameRefinesAsWritten | backend/network/client.go:91-170 | Wherever the code as written does not panic, the checked decoding agrees with it. |
| ClientSession.MoveWithoutXPanics | backend/network/client.go:104-105 | The move {"dir":{"y":1}} panics as written and is ignored by the checked decoding. |
| ClientSession.MoveLookDirNeedsBoth | backend/network/client.go:107-115 | A forwarded move has a look direction iff both look_dir coordinates are numbers. |
| ClientSession.BuiltConfigSpec | backend/network/client.go:199-230 | A new room's configuration is within every bound, and a request within the bounds is granted unchanged. |
| ClientSession.RequestedConfig | backend/network/client.go:199-223 | The request before clamping. Without a payload it is the default. Without a config overlay only max_players and the phase fields can differ from the default, and a numeric max_players is taken truncated. |
| ClientSession.CreateStep | backend/network/client.go:177-181 | Inside a room, creation does nothing. |
| ClientSession.CreateStepSpec | backend/network/client.go:175-252 | An empty trimmed name or a taken name gets a 4001 error and creates nothing. Otherwise the client enters a new room with the trimmed name and built config, is registered and gets 1012. Names stay unique. |
| ClientSession.CreatedSpec | backend/network/client.go:232-251 | The manager refuses a taken name. A free name gets a new room under the clock id. |
| ClientSession.JoinStep | backend/network/client.go:254-260 | Inside a room, joining does nothing, and the table never changes. |
| ClientSession.JoinStepSpec | backend/network/client.go:254-294 | An empty or unknown id gets a 4001 error and leaves the client outside. A known id enters that room, registers and gets 1012. |
| ClientSession.JoinStepAddressed | backend/network/client.go:286-293 | A join registers only with the room entered. |
| ClientSession.CreateStepAddressed | backend/network/client.go:240-251 | A creation registers only with the room created. |
| ClientSession.Client.ApplyOverrides | backend/network/client.go:203-223 | Writes the flat overrides (truncated) and then the config overlay into the object. |
| ClientSession.Client.BuildConfig | backend/network/client.go:199-230 | A copy of the default, with the overrides, clamped twice: equal to one clamp of the request. |
| ClientSession.Client.HandleCreateRoom | backend/network/client.go:175-252 | The room, table and outputs are those of CreateStep, with the built configuration. |
| ClientSession.Client.HandleJoinRoom | backend/network/client.go:254-294 | The room and outputs are those of JoinStep. |
| ClientSession.Client.HandleListRooms | backend/network/client.go:296-304 | Sends one 1014 listing of every room. |
| ClientSession.Client.HandleFrame | backend/network/client.go:52-171 | Per dispatch kind: a skipped frame changes nothing, and the room packets behave as their steps. A game packet is forwarded to the room only while the client is in one. It is decoded with the corrected move decoding of the Findings row (DecodeGame), so a move whose `dir` lacks a numeric x or y is ignored rather than crashing the server. |
| ClientSession.Client.ReadPump | backend/network/client.go:43-173 | A room once entered is never left or swapped. Every registration and input goes to that room. The only unregistration is the final one, present iff the client is in a room. Every frame is handled with the corrected move decoding of the Findings row, so the pump never stops early on a malformed move. |
| ClientGameState.Updated | frontend/client/gamestate.py:15-26 | map_width, map_height, map_tiles and entities are never modified. |
| ClientGameState.SelfBlock | frontend/client/gamestate.py:16-21 | Touches only self_id, my_pos, my_hp and view_radius. Completes iff the block is a dict with pos.x, pos.y, hp and view_radius. |
| ClientGameState.VisionBlock | frontend/client/gamestate.py:23-26 | Touches only players, and completes only when the vision block has players. |
| ClientGameState.VisionPlayers | frontend/client/gamestate.py:25-26 | Iterating players completes only for a list, an empty dict or an empty string, and only a list stores entries. |
| ClientGameState.Collect | frontend/client/gamestate.py:25-26 | The dict-assignment loop never removes a key, even when it raises part way. |
| ClientGameState.NoSelfKeepsSelf | frontend/client/gamestate.py:16 | Without "self", self_id, my_pos, my_hp and view_radius are unchanged. |
| ClientGameState.SelfBlockCopies | frontend/client/gamestate.py:16-21 | A complete self block sets my_pos to [x, y], copies hp and view_radius, and sets self_id to session_id or None. |
| ClientGameState.NoVisionKeepsPlayers | frontend/client/gamestate.py:23 | Without "vision", players is unchanged. |
| ClientGameState.VisionReplacesPlayers | frontend/client/gamestate.py:23-26 | With "vision" the old players are discarded. Each stored entry sits under its own session_id. |
| ClientGameState.CollectOkIff | frontend/client/gamestate.py:25-26 | The loop completes iff every entry is a dict with a hashable session_id. |
| ClientGameState.CollectStoresEntries | frontend/client/gamestate.py:25-26 | Every stored entry sits under its own session_id. |
| ClientGameState.CollectKeys | frontend/client/gamestate.py:25-26 | The keys are exactly the old keys plus the listed session ids. |
| ClientGameState.CollectLastWins | frontend/client/gamestate.py:25-26 | The last entry with a session id is the one stored. |
| ClientGameState.CollectKeepsUnlisted | frontend/client/gamestate.py:25-26 | A key no entry names keeps its value. |
| ClientGameState.VisionListIndexed | frontend/client/gamestate.py:23-26 | For a list of valid entries: no exception, the keys are exactly the listed session ids, and later duplicates win. |
| ClientGameState.UpdateIdempotent | frontend/client/gamestate.py:15-26 | Applying the same payload twice equals applying it once. |
| ClientGameState.GameState.constructor | frontend/client/gamestate.py:2-13 | A 32x32 empty map, no self id, empty players and entities, my_pos [0,0], my_hp 100, view_radius 5.0. |
| ClientGameState.GameState.UpdateFromServer | frontend/client/gamestate.py:15-26 | The new fields and exception flag are those of Updated. |
| ClientGameState.GameState.ApplySelf | frontend/client/gamestate.py:16-21 | The self block's writes, in order, up to any failing lookup. |
| ClientGameState.GameState.ApplyVision | frontend/client/gamestate.py:23-26 | players is reset, then refilled by the loop. |
| ClientGameState.GameState.CollectPlayers | frontend/client/gamestate.py:25-26 | The loop's table and completion are those of Collect. |
| ClientNetwork.RejoinPayload | frontend/client/network.py:53-57 | Always room_id. session_id and name appear iff non-empty, and no other keys. |
| ClientNetwork.RejoinRequestNamesRoom | frontend/client/network.py:58 | The rejoin message has type 1011 and names the room. |
| ClientNetwork.RejoinPayloadInjective | frontend/client/network.py:53-57 | Different identities give different rejoin payloads. |
| ClientNetwork.OrEmpty | frontend/client/network.py:18-19 | `x or ""` on an optional string. |
| ClientNetwork.NetworkClient.constructor | frontend/client/network.py:8-20 | No socket, not connected, the given identity or "", and no room to rejoin. |
| ClientNetwork.NetworkClient.Attach | frontend/client/network.py:29-35 | A socket is attached. |
| ClientNetwork.NetworkClient.Send | frontend/client/network.py:74-79 | Forwards iff a socket is set and the client is connected. Otherwise the message is dropped. |
| ClientNetwork.NetworkClient.OnOpen | frontend/client/network.py:42-58 | Sets connected and sends exactly one 1011 rejoin iff a room is remembered (and a socket is set). |
| ClientNetwork.NetworkClient.OnMessage | frontend/client/network.py:60-65 | Queues exactly one item on a successful parse and nothing on failure. |
| ClientNetwork.NetworkClient.OnClose | frontend/client/network.py:70-72 | connected becomes false. |
| ClientNetwork.NetworkClient.SetIdentity | frontend/client/network.py:81-86 | A None argument leaves its field unchanged. |
| ClientNetwork.NetworkClient.SetAutoJoin | frontend/client/network.py:88-90 | Stores the room id, or "" for a missing one. |
| ClientNetwork.NetworkClient.ClearAutoJoin | frontend/client/network.py:92-94 | Resets the room to rejoin to "". |
| ClientNetwork.ReconnectRejoins | frontend/client/network.py:42-94 | From any state with a remembered room and a socket: after close, a send and a reopen, exactly one rejoin for that room with the identity held has been sent (the send while closed is dropped), and the identity and remembered room are unchanged. |
| ItemManual.Prefix3 | frontend/client/item_manual.py:133 | The first three characters, or all of a shorter id. |
| ItemManual.GetItemAbbr | frontend/client/item_manual.py:130-134 | The table's abbr for a known id, the first three characters otherwise, and never more than 3 characters. |
| ItemManual.GetItemName | frontend/client/item_manual.py:137-141 | The table's name, or the id itself. |
| ItemManual.GetItemUse | frontend/client/item_manual.py:144-148 | The table's usage text, or "". |
| ItemManual.AbbrsHaveThreeLetters | frontend/client/item_manual.py:3-121 | Every abbreviation in the table has three characters. |
| ItemManual.CategoryIdsAreKeys | frontend/client/item_manual.py:3-128 | Every id listed in a section is a key of the table. |
| ItemManual.CategoryIdsDistinct | frontend/client/item_manual.py:123-128 | No id appears twice in a section or in two sections. |
| ItemManual.CategoriesCoverManual | frontend/client/item_manual.py:3-128 | Every item of the table is listed in some section. |
| ItemManual.UnknownIdFallbacks | frontend/client/item_manual.py:130-148 | An unknown id gets its first three characters, itself, and "". |
| Text.TrimSpaceSpec | backend/network/client.go:184-197 | The trimmed name is a slice that neither starts nor ends with white space, and everything cut off is white space. |
| Text.TrimSpace | backend/network/client.go:184-197 | Never longer than its input, and a non-empty result neither starts nor ends with white space. |
| Text.TrimSpaceAllSpace | backend/network/client.go:185-190 | A name made of white space trims to empty. |
| Text.TrimSpaceIdempotent | backend/network/client.go:184-197 | Trimming twice equals trimming once. |
| Text.ParseNatToString | backend/network/manager.go:69 | Reading back the decimal digits gives the number. |
| Text.IntToString | backend/network/manager.go:69 | Decimal text of at least one character, starting with '-' exactly for negatives. |
| Text.IntToStringInjective | backend/network/manager.go:69 | Decimal formatting is injective. |
| JsonValues.ObjectField | backend/network/client.go:67-69 | The comma-ok assertion to an object: succeeds iff the member exists and is an object, and then gives back exactly its members. |
| JsonValues.NumberField | backend/network/client.go:61-65 | The comma-ok assertion to float64: succeeds iff the member is a number, and gives back exactly that number. |
| JsonValues.StringField | backend/network/client.go:91-98 | The comma-ok assertion to string: succeeds iff the member is a string, and gives back exactly that string. |

## Left out

- GameLogic.GameState.StartGame: the initial world items, the phase-1 supply drops and their randomness (`spawnRandomItemInternal`, `spawnPhaseSupplyDrops`) are not modelled. The contract covers the phase, timer, event, merchant and restock.
- GameLogic.GameState.HandleChooseTactic: the `started` branch ensures exactly one merchant and a restocked shop. Its merchant count relies on the world items and supply drops of StartGame being left out (line above). In the source those spawns add further entities. `spawnWeightedRandomItemAt` and `SpawnSupplyDrop` are not part of this model, so the count is stated for the modelled entities only.
- ClientSession.Client.HandleFrame: models the corrected move decoding of the Findings row (DecodeGame). As written, a move packet whose `dir` lacks a numeric x or y panics at backend/network/client.go:104-105; the model ignores that packet instead.
- ClientSession.Client.ReadPump: handles every frame with HandleFrame and so with the corrected move decoding. As written, the first malformed move from a client in a room panics the read loop: the deferred unregistration runs and the server process dies. The model does not capture that crash and goes on reading.
- PlayerRules.Recalculated: timed buffs are treated as lapsed, and the clock is not modelled. Move speed, hear radius, maximum weight and the carried weight are not modelled, because they are floating-point values no modelled operation reads.
- GameLogic.GameState.ProcessExtraction: the storage call `storage.SavePlayer` is an opaque effect and is not modelled.
- `generateShopStock`, `currentLootPhaseIndex` and `ItemDB` are not part of this model. They are parameters of the handlers that use them.
- GameLogic.GameState.RefreshAllPlayersShopStockForPhase: the stock generator is a function of (phase, tactic), so two players with the same tactic get the same stock in one restock. In the source each call of `generateShopStock` draws anew. No contract depends on this.
- `NewUID` is an oracle that returns an id not in the entity table.
- `GetRandomSpawnPos` and the wall density draw are nondeterministic choices. A map without an empty interior cell (where the source loops forever) is excluded by a precondition.
- `UpdateTick`, `nextPhase`, `GetSnapshot`, `HandleInput`, `HandleInteract`, `HandleDevSkipPhase`, `SetPlayerName`, `MarkPlayerDisconnected` and `RemovePlayer`: timers, sound and jammer randomness, and storage. They are outside the modelled core.
- `Distance` and the cone's `cos`/`sqrt`: replaced by squared comparisons. Both are proved equivalent to the source's tests: GameLogic.ReachIsSquaredTest for the distance, and Cone.ConeTestIsCosineTest for the cosine test on normalised vectors. Cone.InConeScaleInvariant shows the normalisation of the look direction does not matter.
- Floating-point rounding is not modelled. Positions are reals, and Go's `int()` is truncation. NaN and infinite values are not modelled: a NaN multiplier in the config reads as 0.0 (PlayerRules.ConfigReal), while Go's arithmetic would propagate it.
- `ListRooms` (room ids only) is not used by the modelled handlers and is left out.
- RoomRegistry.RoomManager.CreateRoom: `NewRoom`'s body and the room goroutine are not part of this model. A new room is modelled with no clients and an Init-phase game. Two creations at the same clock reading would replace a room. The model keeps that behaviour (the table update overwrites), but the source does not guard against it.
- Locks, goroutines, channels and the websocket: channel sends are recorded in one output sequence, and the clock readings are parameters.
- ClientSession.RequestedConfig: the nested `config` overlay that `json.Unmarshal` applies is a function parameter.
- ClientSession.Client.HandleListRooms: the map iteration order of the listing is unspecified, so the contract states that some listing is sent.
- ClientGameState.Updated: Python's equality of 1 and True as dict keys is not modelled. The payload is taken to be a JSON object.
- ClientNetwork.NetworkClient: the `_run` reconnect loop, its 3-second sleeps and the websocket library are left out. `json.loads` is an optional parameter. `str()` of a non-string identity is not modelled, because identities are strings here.
- frontend/main.py, the renderer and i18n: UI code outside the core.

## Findings

| source | as written | input that shows it | evidently intended | confidence | as-written member | corrected member |
|---|---|---|---|---|---|---|
| backend/network/client.go:104-105 | the move handler asserts `dirMap["x"].(float64)` and `dirMap["y"].(float64)` without the comma-ok form | `{"type":2001,"payload":{"dir":{"y":1}}}` from a client in a room panics the server | like `look_dir` at lines 107-115, a `dir` without numeric x and y is ignored | not executed | ClientSession.MoveWithoutXPanics | ClientSession.DecodeGameRefinesAsWritten |
