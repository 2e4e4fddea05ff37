# settlers rules engine in Dafny

This project models the rules engine of the settlers board game (the Go
package `game`). It has two parts:

- **Hex geometry** (`game/game.go`). Hexes use axial coordinates
  (column, row). The neighbour test compares the coordinate difference
  with six fixed unit offsets. `FindSharedNeighbour` looks for the first
  candidate that neighbours two given hexes.
- **Action resolver** (`game/actions.go`). Each `Do*` operation reads a
  board snapshot and returns the ordered list of effects an action causes.
  The board is never changed. The operations are a dice roll, a robbery,
  a trade and four purchases.

The Dafny modules follow the source:

- `Game` (`game.dfy`) holds the resource and hex types, the neighbour
  relation and its lemmas, the first-match searches, the board records and
  the read-only lookups the resolver calls.
- `Effects` (`effects.dfy`) holds the effect and action sum types. It also
  holds a ghost ledger. `NetChange` and `SystemChange` read off how much of
  each resource a list of effects gives to or takes from one player, or
  from all players together. The source has no code that applies effects,
  so this ledger is only used to state properties.
- `Actions` (`actions.dfy`) holds the resolver.
  - The looping operations are methods with loop invariants, proved
    against specification functions:
    - `DoRoll` against `RollEffects`;
    - `DoRob` against `RobEffects`;
    - `ResourcesAsSlice` against `Units`.
  - The guard-then-return operations are functions with contracts:
    `Pay`, `DoTrade` and the purchases.
  - `DoRoll`'s two inner loop levels are the methods `PayTile` (one tile,
    all players) and `PayPlayer` (one tile, one player). Their code is the
    source's loop bodies.

The source's fatal errors are modelled in two ways:

- `log.Fatal` in `pay` becomes a precondition. Its only caller, the roll,
  always pays at least one unit.
- The `log.Fatalf` calls in the purchases become an `Err` result:
  `PlayerNotFound` or `InsufficientResources`.

The random draw in the robbery, `rand.Intn(len(resources) - 1)`, becomes
an argument `choice`. Its precondition is the range that call can return.

The game's design calls for a roll that pays every tile whose number
matches the dice. The code instead stops at the first tile whose number
differs. The model follows the code in `DoRoll`. It gives the full scan
separately as `DoRollFullScan`, and `## Findings` below records the
difference.

## Model

| member | source | states |
|---|---|---|
| Game.Abs | game/game.go:29-35 | the result is non-negative and is either x or -x |
| Game.NeighbourOffsetsAreListed | game/game.go:39-55 | two hexes are neighbours exactly when their (column, row) difference is one of (1,0), (1,-1), (0,-1), (-1,0), (-1,1), (0,1) |
| Game.NotOwnNeighbour | game/game.go:37-55 | no hex is its own neighbour |
| Game.NeighbourSymmetric | game/game.go:40-52 | a is a neighbour of b exactly when b is a neighbour of a (the offset set is closed under negation) |
| Game.NeighbourTranslationInvariant | game/game.go:49-52 | shifting both hexes by the same vector does not change whether they are neighbours |
| Game.NeighbourIffDistanceOne | game/game.go:40-47 | the six offsets are exactly the hexes at distance one in the axial grid the package comment refers to |
| Game.FindSharedNeighbour | game/game.go:58-66 | on success the result is a candidate that neighbours both hexes, and every earlier candidate fails; failure happens exactly when no candidate qualifies, and then the zero hex is returned |
| Game.SharedNeighbourExample | game/game_test.go:30-48 | the test's candidate list yields (-1, 1) and true |
| Game.FindPlayer | game/actions.go:210-213 | no result exactly when no player has the id; otherwise the first player with that id |
| Game.FindAdjacentCities | game/actions.go:158-161 | a city is in the result exactly when it is one of the player's cities and the tile's hex is one of its three hexes |
| Game.FindAdjacentSettlements | game/actions.go:163-166 | the same for settlements |
| Game.FilterMultiset | game/actions.go:158-166 | the adjacency filters keep every copy of a kept structure, so the counts the roll pays by include duplicates |
| Actions.Pay | game/actions.go:117-126 | with n at least 1, the result is an AddResources for the player whose bag has the single key r, with amount n |
| Actions.AppendUnits | game/actions.go:131-135 | the closure appends max(n, 0) copies of the kind to the list |
| Actions.ResourcesAsSlice | game/actions.go:128-144 | the result is the Units list of the player's counters |
| Actions.UnitsLength | game/actions.go:128-144 | the list is as long as the five counters together (negative counters add nothing) |
| Actions.UnitAt | game/actions.go:137-141 | position i holds kind k exactly when k is a real resource and i lies in k's block |
| Actions.UnitsOrdered | game/actions.go:137-141 | the units appear in the order Brick, Grain, Lumber, Ore, Wool |
| Actions.UnitsCount | game/actions.go:128-144 | each kind occurs exactly as often as its counter says |
| Actions.LeadingRun | game/actions.go:151-155 | the tiles before the result all carry the sum, and the tile at the result (if any) does not |
| Actions.PayPlayer | game/actions.go:157-166 | appends the player's payouts for the tile: a city payment, then a settlement payment, each only when its count is positive |
| Actions.PayTile | game/actions.go:157-167 | appends the tile's payouts for every player in board order |
| Actions.DoRoll | game/actions.go:147-171 | the result is the payouts of the leading run of tiles whose number is the dice sum |
| Actions.PlayerPayoutsNet | game/actions.go:157-166 | a player receives of the tile's kind twice its adjacent cities plus its adjacent settlements, and nothing of other kinds; other players receive nothing |
| Actions.TilePayoutsNet | game/actions.go:157-167 | over all players, each id receives of the tile's kind what the tile owes it |
| Actions.PayoutsNet | game/actions.go:151-168 | summed over the effects, each player receives of each kind exactly what the tiles owe them |
| Actions.RollPaysEntitlement | game/actions.go:147-171 | a roll pays each player of each kind exactly what the tiles of the leading run owe them |
| Actions.RollEffectsArePayments | game/actions.go:151-166 | every effect of a roll pays a board player at least one unit of a single kind, taken from a tile of the leading run, and every such tile carries the sum |
| Actions.RollStopsAtFirstMismatch | game/actions.go:151-155 | when the first tile does not carry the sum, the roll yields nothing |
| Actions.RollExample | game/actions_test.go:9-39 | the test board yields two Brick to player 1 (city) and one Brick to player 2 (one adjacent settlement) |
| Actions.MatchingTiles | game/actions.go:151-155 | a tile is kept exactly when it is on the board and carries the sum |
| Actions.FullScanIgnoresNonMatching | game/actions.go:151-155 | a non-matching tile anywhere leaves the full scan unchanged, while the source's roll returns nothing when such a tile comes first |
| Actions.MatchingTilesAreLeadingRun | game/actions.go:151-155 | when no matching tile follows the first mismatch, the matching tiles are exactly the leading run |
| Actions.RollAgreesWithFullScan | game/actions.go:151-155 | under the same condition the source's roll equals the full scan |
| Actions.RollSkipsLaterMatchingTile | game/actions.go:151-155 | a Grain 6 tile followed by a Brick 4 tile under a city: rolling 4 pays nothing in the source, and two Brick in the full scan |
| Actions.DoRollFullScan | game/actions.go:147-171 | the roll without the early exit returns the payouts of every matching tile in board order |
| Actions.FullScanPaysEntitlement | game/actions.go:147-171 | the full scan pays each player of each kind exactly what all matching tiles owe them |
| Actions.RobEffects | game/actions.go:177-192 | no effects exactly when the victim is absent; otherwise a Remove from the victim and an Add to the robber of the same bag, one unit of one real kind the victim holds |
| Actions.DoRob | game/actions.go:174-193 | with the drawn index in the range the source's draw can return, the result is RobEffects for that index |
| Actions.RobConserves | game/actions.go:183-186 | a robbery creates and destroys no resources, and the victim loses what the robber gains |
| Actions.RobAnyHeldKindReachable | game/actions.go:179-181 | over the full index range, every kind the victim holds can be the one taken |
| Actions.RobNeedsTwoUnits | game/actions.go:179-180 | a victim holding fewer than two units admits no draw |
| Actions.RobLastUnitUnreachable | game/actions.go:179-181 | a victim holding one Brick and one Wool always loses the Brick |
| Actions.DoTrade | game/actions.go:196-206 | exactly Add(party, counterparty's offer), Remove(party, party's offer), Add(counterparty, party's offer), Remove(counterparty, counterparty's offer); for each kind the total over all hands is unchanged; each side gains the other's offer and loses its own; nobody else is affected |
| Actions.TradeExample | game/actions_test.go:77-112 | the test trade yields the four effects in the order Add party, Remove party, Add counterparty, Remove counterparty |
| Actions.CostThresholds | game/actions.go:209-276 | each cost bag is covered exactly when the counters meet the thresholds the source tests |
| Actions.DoBuyDevCard | game/actions.go:209-223 | unknown player is PlayerNotFound; otherwise success exactly when Grain, Ore and Wool are each at least 1, and InsufficientResources when not; on success an AddDevCard and a RemoveResources of one Grain, Wool and Ore, which charge exactly that and leave non-negative counters non-negative |
| Actions.DoBuildRoad | game/actions.go:226-240 | the same with Lumber and Brick at least 1, removing one of each |
| Actions.DoBuildSettlement | game/actions.go:243-259 | the same with Lumber, Brick, Grain and Wool at least 1, removing one of each |
| Actions.DoBuildCity | game/actions.go:262-276 | the same with Ore at least 3 and Grain at least 2, removing three Ore and two Grain |
| Actions.BuyDevCardExample | game/actions_test.go:114-142 | the test purchase succeeds with the expected two effects |
| Actions.BuildRoadExample | game/actions_test.go:144-164 | the test road purchase succeeds with the expected two effects |
| Actions.BuildSettlementExample | game/actions_test.go:166-186 | the test settlement purchase succeeds with the expected two effects |

## Left out

- Randomness: `math/rand` is not modelled. The robbery takes the drawn index as the argument `choice`. The seeded expectation of the robbery test depends on Go's generator and is not modelled.
- Process termination: `log.Fatal` and `log.Fatalf` become a precondition (`Pay`) or an `Err` result (purchases). The process exit itself is not modelled.
- Actions.DoRob: a found victim holding fewer than two units makes the source's draw panic. The model requires a valid draw instead (`RobChoiceAllowed`), so that panic is not modelled.
- Missing helpers: `FindPlayer`, `FindAdjacentCities`, `FindAdjacentSettlements`, `PlayerID`, `Resources`, and the `ID`, `Cities` and `Settlements` fields of `Player` are used by `game/actions.go` but defined in no source file of this model.
  - `FindPlayer` is modelled as a first-match scan.
  - Adjacency is modelled as "the tile's hex is one of the structure's three hexes". This is an assumption that agrees with the roll test.
- main.go: not part of this model. It prints a fixed string and declares an unused duplicate `Player` type.
- Applying effects: the source has no applier or reducer. The ghost ledger in `Effects` only reads effect lists to state conservation and charges.
- Validations the source leaves as TODO are not added: trade holdings, settlement adjacency, and removing a settlement on city upgrade.
- Unused fields: the model carries the robber position, development-card hands and owner fields of roads and structures, but nothing reads them, as in the source.
- Go maps: resource bags are `map<Resource, int>` compared by value. Go's map identity and `reflect.DeepEqual` are not modelled.
- Integer width: Go `int` counters and the city payment `2 * len(cities)` are unbounded integers here. 64-bit wrap-around is not modelled.
- Action dispatch: the `Action` sum type is declared, but no function dispatches on it, because the source has none.

## Findings

| source | as written | input that shows it | evidently intended | confidence | as-written member | corrected member |
|---|---|---|---|---|---|---|
| game/actions.go:152-155 | the tile loop breaks at the first tile whose number differs from the dice sum | tiles [Grain 6 at (2,0), Brick 4 at (0,0)], one city touching (0,0), roll summing to 4: no effects | every tile whose number matches pays out, wherever it lies (`FullScanIgnoresNonMatching`, `FullScanPaysEntitlement`) | high, not executed | Actions.RollSkipsLaterMatchingTile | Actions.DoRollFullScan |
| game/actions.go:180 | the index is drawn with `rand.Intn(len(resources) - 1)`, which never returns the last position and panics below two units | victim holding one Brick and one Wool: the Wool can never be taken | any unit the victim holds can be taken (`RobAnyHeldKindReachable`) | high, not executed | Actions.RobLastUnitUnreachable | Actions.RobEffects |
