# Tycoon-Game buildings and roads in Dafny

This project models the simulation core of the Tycoon-Game Unity project. It
covers three parts of the game:

- **Storages.** Every building has an input and an output storage. Each is a
  dictionary from resource type to count. `Add` creates a missing key and
  `Remove` needs the key to exist. `HasResourceRequired` asks for the full
  amount under an existing key.
- **Production and transport.**
  - A building fabricates atomically. It either consumes its whole production
    cost and adds its products, or changes nothing.
  - It keeps a queue of recipients and serves them round-robin. Busy
    construction sites at the head are dropped. A recipient it can send
    nothing to goes back to the front. Otherwise the recipient goes to the
    tail, and when a delivery agent is available the sendable amounts leave
    the output.
  - `RefreshRecipients` rebuilds the queue from the buildings in range,
    farthest at the head. It also records the building as a provider of each
    of them. `OnDestroy` withdraws it from its recipients' provider lists.
- **Road auto-tiling.** A 4-bit mask of the neighbours that hold a road picks
  the road piece and its rotation. Placing a road picks its piece and re-picks
  its road neighbours, one layer deep. Removing content re-picks only the road
  neighbours. Placing a building re-picks nothing.

Files:

- `wrappers.dfy`: `Option`.
- `resources.dfy` (module `Resources`):
  - the dictionary semantics as functions on `map<ResourceType, int>`;
  - the class `Storage`, which updates its `contents` in place.
- `tiles.dfy` (module `Tiles`):
  - the fitting-piece table and the connection flag;
  - the class `Grid`, which owns the content of every tile.
- `placeables.dfy` (module `Placeables`):
  - the class `Building`, whose `constructs` field, when set, makes it a
    `ConstructionSite`;
  - the distance comparer and the sort;
  - the provider-list functions;
  - `Transported`, the value `TransportToRecipients` leaves behind.

The inputs that come from the engine are parameters:

- the tick;
- whether an agent could be spawned;
- the buildings the overlap query finds, with their distances;
- the neighbour function of the grid.

## Model

| member | source | states |
|---|---|---|
| Resources.Added | Assets/Scripts/Architect/Placeables/Building.cs:396-406 | `Add` creates the key when it is absent. The count read back (0 for an absent key) rises by the amount. Every other type keeps its count. |
| Resources.Removed | Assets/Scripts/Architect/Placeables/Building.cs:412-415 | `Remove` needs an existing key. It lowers that count by the amount and keeps the keys and every other count. |
| Resources.RemovedAll | Assets/Scripts/Architect/Placeables/Building.cs:243-249 | Removing a list of amounts in order keeps the key set. |
| Resources.AddedAllAmounts | Assets/Scripts/Architect/Placeables/Building.cs:235-241 | Adding a list creates the keys of its types. Each type rises by its total in the list. |
| Resources.RemovedAllAmounts | Assets/Scripts/Architect/Placeables/Building.cs:243-249 | Removing a list lowers each type by its total in the list. |
| Resources.RemovedAllStaysNonNegative | Assets/Scripts/Architect/Placeables/Building.cs:223-233 | Suppose every amount passes the sufficiency check and the types are distinct. Then removing them leaves no count negative. |
| Resources.AddedAllStaysNonNegative | Assets/Scripts/Architect/Placeables/Building.cs:235-241 | Adding non-negative amounts leaves no count negative. |
| Resources.RepeatedKindCanOverdraw | Assets/Scripts/Architect/Placeables/Building.cs:364-390 | The check tests each amount on its own. A cost that names one type twice (3 and 2 against 4 held) passes and leaves -1. |
| Resources.Sendable | Assets/Scripts/Architect/Placeables/Building.cs:264-277 | The resources to send are no more than the cost entries, and the output holds each of them in full. |
| Resources.SendableFilters | Assets/Scripts/Architect/Placeables/Building.cs:264-277 | Each cost entry the output holds in full occurs in the resources to send as often as in the cost. No other entry occurs at all. |
| Resources.SendableKeepsDistinctKinds | Assets/Scripts/Architect/Placeables/Building.cs:264-277 | A cost naming each type once yields resources to send that name each type once. |
| Resources.Storage.constructor | Assets/Scripts/Architect/Placeables/Building.cs:351-357 | A new storage holds the initial amounts, added one after the other to an empty dictionary. |
| Resources.Storage.Get | Assets/Scripts/Architect/Placeables/Building.cs:417-425 | The count of a type is its entry when the key is present and 0 otherwise. |
| Resources.Storage.HasResourceRequired | Assets/Scripts/Architect/Placeables/Building.cs:377-390 | The full amount is held exactly when the key is present and its count is at least the amount. An absent key fails, even for amount 0. |
| Resources.Storage.HasResourcesRequired | Assets/Scripts/Architect/Placeables/Building.cs:364-390 | The result is true exactly when every entry's key is present with count minus amount at least 0. An absent key fails, even for amount 0. |
| Resources.Storage.Add | Assets/Scripts/Architect/Placeables/Building.cs:396-406 | The new contents are `Added` of the old, in place. |
| Resources.Storage.Remove | Assets/Scripts/Architect/Placeables/Building.cs:412-415 | The key must exist. The new contents are `Removed` of the old. |
| Tiles.FittingPiece | Assets/Scripts/Grid/Tile.cs:137-156 | The lookup succeeds exactly for flags 0..15 and throws for any other. Every rotation it gives is in 0..3. |
| Tiles.FittingPieceConnects | Assets/Scripts/Grid/Tile.cs:137-156 | Every non-empty flag maps to the piece whose open sides are exactly that flag. This covers ends 1, 2, 4, 8 at rotations 0..3, straights 5 and 10, corners 3, 6, 12, 9 and T-junctions 7, 14, 13, 11. Flags 0 and 15 both map to `(CROSS, 0)`. A straight is never rotated by more than a quarter turn, so 5 gives rotation 0 and 10 gives rotation 1. |
| Tiles.FittingPieceKind | Assets/Scripts/Grid/Tile.cs:137-156 | The piece type is fixed by the number of set bits: 0 or 4 give a cross, 1 an end, 2 a straight or a corner, 3 a T-junction. |
| Tiles.ConnectionFlagIsMask | Assets/Scripts/Grid/Tile.cs:118-129 | Each neighbour carries its own bit among 1, 2, 4 and 8. Then the byte-cast sum of the directions of the road neighbours is the mask of those directions, in 0..15. |
| Tiles.OneRoadNeighbourGivesEnd | Assets/Scripts/Grid/Tile.cs:118-156 | A tile with exactly one road neighbour gets an end opening toward it. |
| Tiles.FourRoadNeighboursGiveCross | Assets/Scripts/Grid/Tile.cs:118-156 | A tile with roads on all four sides gets `(CROSS, 0)`. |
| Tiles.Grid.HasContent | Assets/Scripts/Grid/Tile.cs:39 | A tile has content exactly when the grid holds a road or a building for it. |
| Tiles.Grid.GetRoadConnectionFlag | Assets/Scripts/Grid/Tile.cs:118-129 | The loop yields the byte-cast sum of the directions of the neighbours holding a road. On a valid grid that is the direction mask. |
| Tiles.Grid.PickRoad | Assets/Scripts/Grid/Tile.cs:91-98 | Only the tile's own entry changes. It becomes the road piece the neighbour mask selects. |
| Tiles.Grid.PickRoadForNeighbours | Assets/Scripts/Grid/Tile.cs:103-112 | Exactly the neighbours holding a road are re-picked. Every other tile, and the set of road tiles, stays unchanged. |
| Tiles.Grid.PlaceContent | Assets/Scripts/Grid/Tile.cs:71-86 | A building is stored and nothing else changes. A road is stored with the piece that fits. Its road neighbours are re-picked, one layer deep, and every other tile is unchanged. |
| Tiles.Grid.RemoveContent | Assets/Scripts/Grid/Tile.cs:161-166 | The tile no longer has content. Only its road neighbours are re-picked. |
| Placeables.Compare | Assets/Scripts/Architect/Placeables/Building.cs:330-336 | The comparer returns -1, 0 or 1: negative exactly when nearer, 0 exactly at equal distance. |
| Placeables.CompareIsConsistent | Assets/Scripts/Architect/Placeables/Building.cs:330-336 | The comparer is antisymmetric, reflexive and transitive, so the sort can use it. |
| Placeables.Insert | Assets/Scripts/Architect/Placeables/Building.cs:170 | One insertion step of the sort adds exactly the new entry to the list's multiset. |
| Placeables.InsertKeepsAscending | Assets/Scripts/Architect/Placeables/Building.cs:170 | An insertion into a list sorted by distance keeps it sorted. |
| Placeables.SortByDistance | Assets/Scripts/Architect/Placeables/Building.cs:170 | `Sort` with the comparer gives a permutation in ascending distance. |
| Placeables.FrontInsertedStep | Assets/Scripts/Architect/Placeables/Building.cs:86-90 | Inserting the next building at the front extends the reversed list by that building. |
| Placeables.WithProvider | Assets/Scripts/Architect/Placeables/Building.cs:100-108 | After `AddProvider` the building is a provider. |
| Placeables.WithProviderMembers | Assets/Scripts/Architect/Placeables/Building.cs:100-108 | `AddProvider` keeps every other provider and adds no one else. It never creates a duplicate. |
| Placeables.WithProviderIdempotent | Assets/Scripts/Architect/Placeables/Building.cs:100-108 | Adding a provider twice is adding it once. |
| Placeables.RemoveFirst | Assets/Scripts/Architect/Placeables/Building.cs:110-114 | `List.Remove` takes exactly one occurrence out of the multiset, or nothing when the element is absent. |
| Placeables.RemoveFirstKeepsNoDuplicates | Assets/Scripts/Architect/Placeables/Building.cs:110-114 | Removing from a list without duplicates leaves none. |
| Placeables.RemoveFirstAbsent | Assets/Scripts/Architect/Placeables/Building.cs:110-114 | Removing an absent element changes nothing. |
| Placeables.RemoveFirstRemoves | Assets/Scripts/Architect/Placeables/Building.cs:110-114 | On a list without duplicates one removal takes the element out and keeps every other. |
| Placeables.RemoveTimesRemoves | Assets/Scripts/Architect/Placeables/Building.cs:315-323 | One or more removals from a provider list without duplicates take the building out and keep every other provider. |
| Placeables.Building.constructor | Assets/Scripts/Architect/Placeables/Building.cs:44-53 | The input holds the preset's initial storage and the output is empty. Cost and products come from the preset. The lists are empty and the building is not a site. |
| Placeables.Building.Site | Assets/Scripts/Architect/Placeables/ConstructionSite.cs:11-18 | A site remembers the target preset and takes the target's build cost as its production cost. `isReceiving` starts false. |
| Placeables.Building.Eligible | Assets/Scripts/Architect/Placeables/Building.cs:145-168 | The filter keeps the candidates other than this building that need a type it produces, each as often as found, and only those. |
| Placeables.FirstReady | Assets/Scripts/Architect/Placeables/Building.cs:282-286 | It gives the index of the first recipient that is not a busy site. All before it are busy. |
| Placeables.Building.InitializeAfterInstantiation | Assets/Scripts/Architect/Placeables/Building.cs:55-63 | The building records its hosting tile. |
| Placeables.Building.InsertAtFrontOfQueue | Assets/Scripts/Architect/Placeables/Building.cs:185-188 | The building goes in at index 0. |
| Placeables.Building.EnqueueRecipient | Assets/Scripts/Architect/Placeables/Building.cs:194-197 | The recipient is appended at the tail. |
| Placeables.Building.DequeueRecipient | Assets/Scripts/Architect/Placeables/Building.cs:202-207 | It needs a non-empty queue, returns the head and removes it. |
| Placeables.Building.AddProvider | Assets/Scripts/Architect/Placeables/Building.cs:100-108 | The provider list becomes `WithProvider` of the old one. |
| Placeables.Building.RemoveProvider | Assets/Scripts/Architect/Placeables/Building.cs:110-114 | The provider list loses the first occurrence. |
| Placeables.Building.AddToStorage | Assets/Scripts/Architect/Placeables/Building.cs:235-241 | The storage becomes the old contents with every amount added in order. |
| Placeables.Building.RemoveFromStorage | Assets/Scripts/Architect/Placeables/Building.cs:243-249 | The storage becomes the old contents with every amount removed in order. Each type needs a key. |
| Placeables.Building.Fabricate | Assets/Scripts/Architect/Placeables/Building.cs:223-233 | Fabrication is atomic. Lacking the cost, neither storage changes. Otherwise the input loses the whole cost and the output gains every product. The returned flag says which case happened. |
| Placeables.Building.FabricateSite | Assets/Scripts/Architect/Placeables/ConstructionSite.cs:28-39 | The signalled value is the sufficiency result. Without the cost nothing changes. With it the tile is emptied and a building of the target preset is placed on the same tile, and only the tile and its road neighbours change. The site's storages are not debited. |
| Placeables.Building.Produce | Assets/Scripts/Architect/Placeables/Building.cs:212-218 | Off the production ticks nothing changes. On them the attempt reports whether the input held the cost, and a building fabricates atomically. A site whose input holds the cost returns a fresh building of its target. That building records the site's tile and is placed there. The road set loses the tile, the tile's road neighbours are re-picked and every other tile is unchanged. The site's storages are untouched. |
| Placeables.Building.ResourcesToSend | Assets/Scripts/Architect/Placeables/Building.cs:264-277 | The loop yields exactly the recipient's cost entries that the output holds in full, in order. |
| Placeables.Building.TransportToRecipients | Assets/Scripts/Architect/Placeables/Building.cs:259-313 | The queue, delivery and output are the `Transported` outcome from the first recipient that is not busy. A recipient's `isReceiving` only turns true, and only when it is a site that just got a delivery. |
| Placeables.Building.SkipBusy | Assets/Scripts/Architect/Placeables/Building.cs:282-286 | A busy site at the head is dropped, and the outcome is that of the rest of the queue. |
| Placeables.Building.Dispatch | Assets/Scripts/Architect/Placeables/Building.cs:288-311 | With nothing to send, the recipient goes back to the front. Otherwise it goes to the tail, and an available agent takes the amounts from the output. A site recipient then becomes busy. |
| Placeables.Building.Transport | Assets/Scripts/Architect/Placeables/Building.cs:251-257 | Off the transport ticks nothing changes. On them the outcome is that of `TransportToRecipients`. |
| Placeables.Transported | Assets/Scripts/Architect/Placeables/Building.cs:259-313 | The outcome of one transport step keeps one queue entry for each recipient from the first ready one on. A delivery needs an available agent and goes to that recipient. |
| Placeables.TransportedSkipsBusy | Assets/Scripts/Architect/Placeables/Building.cs:282-286 | Skipping a busy head site gives the same outcome as starting one place later. |
| Placeables.TransportedKeepsRecipients | Assets/Scripts/Architect/Placeables/Building.cs:288-311 | The queue keeps every recipient after the busy head, as often as before. A recipient sent nothing stays at the head of what remains. One sent something moves to the tail. |
| Placeables.TransportedDebitsOutput | Assets/Scripts/Architect/Placeables/Building.cs:296-308 | A delivery exists exactly when the recipient is sent something and an agent is available. It goes to that recipient and carries the sendable amounts. The output drops per type by their total and otherwise stays the same. No count goes negative when the cost names each type once. |
| Placeables.Building.HasRoadNeighbour | Assets/Scripts/Architect/Placeables/Building.cs:70-82 | The search finds a road exactly when some neighbour of the tile holds one. |
| Placeables.Building.GetBuildingsInRange | Assets/Scripts/Architect/Placeables/Building.cs:140-179 | The result is the eligible candidates sorted by ascending distance. |
| Placeables.Building.RefreshRecipients | Assets/Scripts/Architect/Placeables/Building.cs:65-93 | The queue is emptied. With no road neighbour it stays empty. Otherwise it is the sorted eligible buildings reversed. Each of them has this building as a provider, and no other candidate's providers change. |
| Placeables.Building.ConnectRecipients | Assets/Scripts/Architect/Placeables/Building.cs:86-90 | The loop inserts every building at the front and adds this building to its providers. |
| Placeables.Building.ConnectRecipient | Assets/Scripts/Architect/Placeables/Building.cs:86-90 | One iteration keeps the invariant. Every candidate in the queue has this provider added to its original list, and every other candidate's list is unchanged. |
| Placeables.Building.RecipientsProvided | Assets/Scripts/Architect/Placeables/Building.cs:86-90 | After the loop every recipient lists this building as a provider. |
| Placeables.Building.OnDestroy | Assets/Scripts/Architect/Placeables/Building.cs:315-323 | The building's own providers are cleared. Each recipient's provider list loses this building once per occurrence of the recipient in the queue. |
| Placeables.PlaceBuildingAt | Assets/Scripts/Architect/Placeables/ConstructionSite.cs:38 | It places a new building of the preset on the tile. Nothing else in the grid changes. |

## Left out

- Unity calls are not modelled:
  - The physics overlap query and `Vector3.Distance` become the `candidates` parameter, each candidate with its distance.
  - Rendering is left out: `UpdateModel`, `BuildingConnectionsRenderer`, the road preset lookup, `Debug.Log` and `GameObject.Destroy`.
  - The building controller's subscription is left out, and its tick becomes the `tick` parameter. This covers the subscription in `ConstructionSite.InitializeAfterInstantiation`. That override records the hosting tile as `Building.InitializeAfterInstantiation` does, and the model uses that method for both.
- Agents and placement are abstracted:
  - `AgentSpawner.SpawnAgent` becomes the `agentAvailable` parameter.
  - The agent's `SetDeliveryTarget` becomes the returned `Delivery`.
  - `ArchitectController.PlaceBuildingAt` is not part of this model; `PlaceBuildingAt` stands for it. It creates a building of the preset, records the tile and places it with `PlaceContent`.
- `GridManager.GetNeighboursFor` is not part of this model. The grid takes a fixed neighbour function. `Grid.Valid` assumes it gives each neighbour its own direction bit among 1, 2, 4 and 8, as the fitting table presumes.
- The following are not modelled at all:
  - `GetClosestBuilding`, which is unused and float-based;
  - the `NotImplementedException` stubs `OnDeselect` and `Road.OnDestroy`;
- Placeables.SortByDistance: specified as a permutation in ascending distance, computed by an insertion sort. The order `List.Sort` gives to buildings at equal distance is not modelled. `List.Sort` is unstable, so that order is unspecified.
- Resources.Added: counts are unbounded integers, so 32-bit overflow of a count is not modelled.
- Resources.Removed: likewise, the subtraction in `Remove` does not wrap at 32 bits.
- Resources.Storage.Remove: a missing key throws `KeyNotFoundException` in the game. Here it is a precondition, and `RemoveFromStorage` needs every type to have a key.
- Placeables.Building.Transport: a transport time of 0 would throw a division by zero. It is a precondition here, and so is a production time of 0 in `Produce`.
- The game's `OnFabricate` event is not modelled as an event. `FabricateSite` returns the value the event is raised with, and `Produce` returns it as its `attempt`. A plain building's `Fabricate` raises no event in the game. Its returned flag, and `Produce`'s `attempt` for a plain building, exist only in the model.
- The queue is modelled as the code behaves, which differs from a plain round-robin in two places:
  - A recipient sent nothing goes back to the front, so it blocks the queue until it can be sent something.
  - A recipient is moved to the tail even when no agent was available.
- The provider lists and the queues are not kept in step, as in the code:
  - `OnDestroy` does not remove the building from its providers' recipient queues.
  - `RefreshRecipients` replaces the queue without removing this building from the provider lists of the recipients it drops. A building can therefore keep listing a provider whose queue no longer holds it.
