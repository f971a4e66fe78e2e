# Falling sand: the particle rule engine

A model of the per-update rule engine of a falling-sand cellular automaton
(`particles.js`). The grid holds, per cell, either nothing or one particle of
six kinds: sand, water, stone, dirt (which carries a `wet` flag), cloud and
grass. Each kind has an `update(row, col)` rule that rewrites the cells around
it through four grid primitives, and a factory builds particles from the names
in the dropdown.

Modules:

- `Wrappers` (`wrappers.dfy`): the `Option` type, standing for `null`/`undefined`.
- `Particles` (`particles.dfy`): the `Particle` datatype (`Dirt(wet)` is the
  only kind with state), the two swap predicates, the method resolution of
  `this.swap`, and the factory `checkParticleType`.
- `Boards` (`boards.dfy`): the grid as a value (rows of optional particles) and
  the contract of `checkBounds`, `getParticle`, `setParticle` and
  `moveParticle`; the particle multiset of a board and the proof that moves
  and swaps keep it.
- `Canvas` (`canvas.dfy`): a `Grid` class over `array2<Option<Particle>>`
  implementing those primitives, each method tied to its value-level
  definition in `Boards`.
- `Rules` (`rules.dfy`): every `update` rule as a function from the board
  before to the board after, with lemmas giving each rule's outcomes cell by
  cell.
- `Conservation` (`conservation.dfy`): what the rules keep: the particle
  multiset and count, the other particles' cells, and grass, across one update
  and across any sequence of updates.
- `Updates` (`updates.dfy`): the `update` methods themselves, imperative, over
  a `Grid`, each proved to leave the grid equal to its rule applied to the old
  grid.

**Assumed grid contract.** `checkBounds`, `getParticle`, `setParticle` and
`moveParticle` come from canvas.js, and canvas.js is not part of this model. The
`Grid` class and `Boards.MoveOn` implement the contract the rules rely on. A
read outside the grid yields no particle. A move to an outside cell fails and
changes nothing. A move into an empty cell clears the source and puts its
content there. A move into an occupied cell swaps the two cells when the
optional predicate accepts the occupant, and otherwise fails and changes
nothing.

**Randomness.** `getRandomInt` comes from util.js, and util.js is not part of
this model. Each draw used as a condition (lines 116, 121, 147, 152) is a
boolean input (`Rules.Coins`), so every property holds for every outcome. If
`getRandomInt(0, 1)` can only return 0 (an exclusive upper bound), the lateral
coin is always false. That is one of the covered cases.

**Where the code and its description differ, the model follows the code.**

- Stone has no `update` of its own. It runs the inherited falling rule: down,
  else down-left, else down-right (`StoneFalls`). It is not inert.
- Cloud's vertical move goes to `row - 1`, that is up, whatever the comment
  above it says.
- The sideways moves of cloud and water start from the original `(row, col)`
  even after a vertical move has emptied that cell. Under the grid contract
  such a stale move changes nothing; it reports success only when the side
  it moves to is on the grid (`StaleMoveIsNoOp`, `SidewaysAfterMoveIsNoOp`).
- The sideways test is `coin && first side reads as empty`, else the other
  side. When the coin is set and the first side is off the grid, the first
  branch is taken, its move fails, and the other side is not tried
  (`SidewaysOutcomes`).

## Model

| member | source | states |
|---|---|---|
| `Particles.ParticleSwap` | particles.js:22-24 | The base swap predicate refuses every occupant. |
| `Particles.SandSwap` | particles.js:59-61 | Sand's predicate accepts an occupant exactly when its `type` is "water". |
| `Particles.SwapOf` | particles.js:52-171 | The predicate `this.swap` resolves to (only `Sand` overrides it) accepts an occupant iff the receiver is sand and the occupant's `type` is "water", so no other kind displaces anything. |
| `Particles.CheckParticleType` | particles.js:179-195 | A particle exactly for the six class names, otherwise none. Its class name is the given name, its `type` is the name lower-cased, and dirt starts dry. |
| `Particles.FactoryRoundTrip` | particles.js:179-195 | Passing a particle's class name to the factory gives back that kind, with dirt dry. |
| `Boards.At` | particles.js:1 | Assumed `getParticle`: a cell's content inside the grid, no particle outside it. |
| `Boards.Put` | particles.js:1 | Assumed `setParticle`: the cell holds the new value and every other cell is unchanged. |
| `Boards.MoveOn` | particles.js:1 | Assumed `moveParticle`: keeps the grid's shape. A failed move changes nothing, and a successful one had an in-bounds destination. |
| `Boards.MoveOnCases` | particles.js:1 | The four cases of the move contract. Out of bounds: fails, no change. Empty destination: transfer, only the two cells change. Accepted occupant: the two cells exchange. Refused occupant: fails, no change. |
| `Boards.StaleMoveIsNoOp` | particles.js:121-125 | A move out of an emptied cell into an empty cell leaves the board unchanged. |
| `Boards.MoveKeepsOccupants` | particles.js:36-39 | Every move, swap or failed move keeps the multiset of particles on the board. No particle is created, lost or duplicated. |
| `Canvas.Grid.constructor` | particles.js:1 | A fresh grid of the given size with every cell empty. |
| `Canvas.Grid.CheckBounds` | particles.js:1 | `checkBounds` holds exactly for the cells of the grid. |
| `Canvas.Grid.GetParticle` | particles.js:1 | `getParticle` returns what `Boards.At` gives on the grid's contents. |
| `Canvas.Grid.SetParticle` | particles.js:1 | `setParticle` leaves the grid equal to `Boards.Put` of the old grid. |
| `Canvas.Grid.MoveParticle` | particles.js:1 | `moveParticle` returns and leaves exactly what `Boards.MoveOn` gives on the old grid. |
| `Rules.StoneFalls` | particles.js:32-42 | Stone moves into an empty cell below, else down-left, else down-right, and otherwise stays. Each move changes only the two cells. |
| `Rules.SandSinks` | particles.js:63-65 | Sand moves into an empty cell below, exchanges places with water below, and otherwise the board is unchanged. No other cell changes. |
| `Rules.DirtGrowsOrFalls` | particles.js:86-96 | Wet dirt becomes grass in its own cell and nothing else changes. Dry dirt moves into an empty cell below and otherwise stays. |
| `Rules.RainWetsDirt` | particles.js:109-113 | Cloud or water above dirt (lines 109-113 and 139-144): the dirt becomes wet dirt in place, the raining cell empties, and no other cell changes. |
| `Rules.SidewaysAfterMoveIsNoOp` | particles.js:120-126 | After the vertical move has emptied the particle's cell, the sideways step changes nothing. |
| `Rules.SidewaysOutcomes` | particles.js:120-126 | The sideways step from an occupied cell. With the coin set and the first side empty: move there. With the coin set and the first side off the grid: no move. Otherwise: move into the second side when empty, else no move. |
| `Rules.CloudDrifts` | particles.js:115-126 | A cloud that does not rain out rises into an empty cell above on the vertical coin, and nothing else changes. Otherwise it takes the sideways step, left first. |
| `Rules.WaterFlows` | particles.js:146-157 | Water that does not rain out falls into an empty cell below on the vertical coin, and nothing else changes. Otherwise it takes the sideways step, right first. |
| `Rules.GrassIsInert` | particles.js:168-170 | A grass update leaves the whole board unchanged. |
| `Conservation.StepKeepsShape` | particles.js:32-170 | Every update keeps the grid's dimensions. |
| `Conservation.StepKeepsParticles` | particles.js:32-158 | After any update the particle multiset is unchanged, except in two cases. Wet dirt is traded for grass. A rain-out removes the raining particle and trades the dirt below for wet dirt. |
| `Conservation.StepCount` | particles.js:32-158 | Every update keeps the particle count, except a rain-out, which lowers it by exactly one. |
| `Conservation.StepSparesOccupants` | particles.js:32-170 | Besides its own cell, an update changes an occupied cell only in two cases: sand swaps with the water directly below it, or a rain-out wets the dirt below. |
| `Conservation.WaterOrCloudEntersOnlyEmpty` | particles.js:115-157 | Water and cloud that do not rain out change only their own cell and cells that were empty. |
| `Conservation.RainThenGrass` | particles.js:86-145 | Cloud or water above dirt, then the dirt: the dirt turns to grass in place, the raining cell is empty, and no other cell changes. |
| `Conservation.RunCount` | particles.js:32-170 | Across any sequence of updates, the count falls by exactly the number of rain-outs and never rises. |
| `Conservation.GrassIsPermanent` | particles.js:32-170 | Grass stays in its cell, as grass, across any sequence of updates. |
| `Updates.ParticleUpdate` | particles.js:32-42 | The base update (stone's) leaves the grid equal to `Rules.FallStep` of the old grid. |
| `Updates.SandUpdate` | particles.js:63-65 | Leaves the grid equal to `Rules.SandStep` of the old grid. |
| `Updates.DirtUpdate` | particles.js:86-96 | Leaves the grid equal to `Rules.DirtStep` of the old grid. |
| `Updates.CloudUpdate` | particles.js:108-127 | Leaves the grid equal to `Rules.CloudStep` of the old grid for the given coins. |
| `Updates.WaterUpdate` | particles.js:138-158 | Leaves the grid equal to `Rules.WaterStep` of the old grid for the given coins. |
| `Updates.GrassUpdate` | particles.js:168-170 | Leaves the grid unchanged. |
| `Updates.Update` | particles.js:52-171 | Dispatching `update` on the occupant's class (stone to the base rule) leaves the grid equal to `Rules.Step` of the old grid. |

## Left out

- canvas.js (rendering, grid storage) is not part of this model. Only the grid contract above is modelled. A move from an out-of-bounds source is not modelled, because every caller moves from its own cell. Also not modelled: the order in which `moveParticle` writes the two cells of a swap.
- util.js (`getRandomInt`) is not part of this model. Its draws are boolean inputs, and its range is not modelled.
- The tick driver, its traversal order, and the hazard that a moved particle is updated twice or skipped are left out. That code is not in particles.js. `Conservation.Run` is any sequence of update calls, not a claim about that order.
- Object identity: particles are values. `below.wet = true` on the shared dirt object is modelled as writing wet dirt back into its cell. "No particle in two cells" is stated as the particle multiset being kept (`StepKeepsParticles`).
- The update methods require their receiver to occupy `(row, col)`. The tick driver, which is not in particles.js, is assumed to call `update` on the occupant of each occupied cell. What the methods do when called on some other cell is not modelled.
- Colours, the dropdown, mouse placement and animation-frame scheduling are display and input only.
