# Neon city: procedural layout, buildings, windows and particles

This project models the procedural core of a React / three.js "cyberpunk city" scene:

- the random helpers and grid constants (`src/utils.js`);
- the block layout of `City`, the attribute sampling of `Building`, the window
  grid of `WindowGrid`, the strip height of `NeonStrip` and the draws of `Antenna`
  (`src/components/City.jsx`);
- the buffers and per-frame update of the rising particle cloud of `Particles`
  (`src/components/Particles.jsx`).

It also proves properties of the model.

Randomness is modelled as an unbounded stream of draws `d: nat -> real`, each in
[0, 1). The i-th call of `Math.random` returns `d(i)`. Every generator takes the
index of its first draw and reports the index of the first draw it leaves unused,
so the order in which the code consumes draws is part of each contract.

Modules:

- `Utils` (`utils.dfy`): `rand`, `randI`, `pick` and the grid constants.
- `Filter` (`filter.dfy`): the loop shape shared by the layout and the window
  grid. It walks cells in order, spends one draw per cell and skips a cell whose
  draw fails a test.
- `City` (`city.dfy`): the 11 x 11 layout loop, written as a method. It is
  proved against the function `Blocks`. The module also covers block keys and
  why buildings of different blocks never intersect.
- `Building` (`building.dfy`): per-building attribute records, the faces that
  get windows, neon strip heights, and antenna draws and positions.
- `Windows` (`windows.dfy`): the nested `WindowGrid` loops, written as a method.
  They are proved against the function `Windows`.
- `Particles` (`particles.dfy`): the class `ParticleField` over its three
  buffers. The constructor is the initial sampling loop and `Step` is one frame.
  Both are proved against functions on sequences (`Coords`, `Speeds`, `Tints`,
  `Drift`).

The city layout is a fixed 11 x 11 grid of lots. Each lot becomes a plaza gap
with probability 0.1, and the 2 or 3 buildings of a shared lot get random offsets
from its centre.

## Model

| member | source | states |
|---|---|---|
| Utils.Rand | src/utils.js:2 | `rand(a, b)` lies in [a, b) when a < b, is a when a == b, and lies in (b, a] when b < a |
| Utils.RandOnto | src/utils.js:2 | every value of [a, b) is `rand(a, b)` of some draw |
| Utils.RandI | src/utils.js:3 | `randI(a, b)` is an integer of [a, b] when a <= b |
| Utils.RandIOnto | src/utils.js:3 | every integer of [a, b] is `randI(a, b)` of some draw |
| Utils.PickIndex | src/utils.js:4 | the index `pick` reads is in [0, n) for a non-empty array |
| Utils.Pick | src/utils.js:4 | `pick(arr)` returns an element of arr |
| Utils.PickIndexOnto | src/utils.js:4 | every index of a non-empty array can be picked |
| Utils.GridConstants | src/utils.js:6-16 | CELL is 23, CITY_OFFSET is 115; the edge palette has 6 colours and the body palette 5 |
| Filter.Kept | src/components/City.jsx:200-209 | the cells that survive the skip test are at most n and all below n |
| Filter.KeptCount | src/components/City.jsx:200-209 | kept plus skipped cells make all n cells |
| Filter.KeptIncreasing | src/components/City.jsx:200-209 | survivors come in visiting order, each once |
| Filter.KeptMember | src/components/City.jsx:200-209 | a cell survives if and only if its own draw passes the test |
| Filter.NoneSkipped | src/components/City.jsx:200-209 | when every draw passes, all n cells survive |
| Filter.AllSkipped | src/components/City.jsx:16-24 | when every draw fails, nothing survives |
| City.GridCoord | src/components/City.jsx:205-206 | a grid index in [0, 11) maps to a coordinate in [-115, 115] |
| City.GridSymmetric | src/components/City.jsx:205-206 | the grid is symmetric about the origin, and neighbouring grid lines are 23 apart |
| City.GridApart | src/components/City.jsx:205-206 | grid lines keep the order of their indices, at least one CELL apart |
| City.DecimalString | src/components/City.jsx:204 | a number renders as a non-empty string of decimal digits |
| City.DecimalRoundTrip | src/components/City.jsx:204 | parsing the decimal rendering gives the number back |
| City.Key | src/components/City.jsx:204 | the key `${gx}-${gz}` is decimal digits with a single dash, right after the digits of gx |
| City.KeyRoundTrip | src/components/City.jsx:204 | the key `${gx}-${gz}` parses back to (gx, gz) |
| City.KeyInjective | src/components/City.jsx:204 | distinct lots have distinct keys |
| City.BlockAt | src/components/City.jsx:203-207 | the record of a lot of the grid has its centre inside [-115, 115] on both axes |
| City.Blocks | src/components/City.jsx:198-211 | the reference block list the layout loop is proved equal to; it holds at most 121 blocks |
| City.LotStep | src/components/City.jsx:201-208 | one inner iteration appends lot (gx, gz) exactly when its draw is not below 0.1 |
| City.Layout | src/components/City.jsx:197-211 | the loop spends 121 draws and returns the block list `Blocks(d, k)` |
| City.LayoutSize | src/components/City.jsx:200-202 | the block count is 121 minus the plaza gaps, at most 121, and exactly 121 when no draw is below 0.1 |
| City.LayoutMember | src/components/City.jsx:200-207 | lot (gx, gz) gets a block if and only if its draw, number gx * 11 + gz, is not below 0.1 |
| City.LayoutOrder | src/components/City.jsx:200-207 | blocks come gx-major, gz-minor: centres strictly increase in (cx, cz) order |
| City.LayoutKeysDistinct | src/components/City.jsx:200-207 | no two blocks share a React key |
| City.LayoutInsideCity | src/components/City.jsx:205-206 | every block centre lies inside [-115, 115] on both axes |
| City.LotsApart | src/components/City.jsx:112-133 | buildings standing on two different lots never intersect |
| City.LayoutNoOverlap | src/components/City.jsx:198-215 | buildings sampled for two different blocks of one layout never intersect |
| Building.SampleBuildCount | src/components/City.jsx:108 | 1 building when the first draw is at most 0.7, otherwise 2 or 3; one or two draws are spent |
| Building.SampleSpec | src/components/City.jsx:111-125 | one record stays within the source's bounds; the draws spent depend on the height; the roof flag follows its own draw |
| Building.SampleSpecs | src/components/City.jsx:110-127 | n well-formed records, spending 10 to 14 draws each |
| Building.SampleBlock | src/components/City.jsx:107-127 | a block holds 1 to 3 well-formed buildings and spends 11 to 44 draws |
| Building.SingleBuildingBlock | src/components/City.jsx:108-116 | a block with count 1 samples its one building with the wide bounds and no offset |
| Building.WithinLot | src/components/City.jsx:112-116 | every footprint stays within 8.55 of the block centre, inside the 18 x 18 lot |
| Building.WindowFaces | src/components/City.jsx:143-149 | four window faces exist only when the height exceeds 8; each spans the width or the depth and the full height |
| Building.FacesHaveRoom | src/components/City.jsx:143-148 | every emitted face of a sampled building has room for at least 3 x 3 windows |
| Building.StripY | src/components/City.jsx:46 | the strip offset `bh * yFrac - bh / 2` stays within the body |
| Building.UpperStripHeight | src/components/City.jsx:153-156 | the upper strip sits between 0.6 and 0.95 of the height |
| Building.LowerStripHeight | src/components/City.jsx:160-163 | the lower strip sits at a tenth of the height |
| Building.StripsApart | src/components/City.jsx:121-163 | on a building with both strips, the upper one is at least 15 above the lower one |
| Building.SampleAntenna | src/components/City.jsx:74-79 | the six antenna draws, in source order, stay in their ranges; the beacon is present exactly when its draw exceeds 0.4 |
| Building.AntennaSpot | src/components/City.jsx:177-186 | an antenna stands strictly inside the roof |
| Windows.Cols | src/components/City.jsx:12 | `Math.floor(faceW / 1.8)` is the greatest integer not above faceW / 1.8 |
| Windows.Rows | src/components/City.jsx:13 | `Math.floor(faceH / 2.2)` is the greatest integer not above faceH / 2.2 |
| Windows.GridCells | src/components/City.jsx:12-17 | the loops visit some cell if and only if both the column and row counts are positive |
| Windows.Point | src/components/City.jsx:19-22 | the centre pushed for column c, row r lies strictly inside the face |
| Windows.Centre | src/components/City.jsx:16-22 | the centre of visit n lies strictly inside the face |
| Windows.CentreAt | src/components/City.jsx:16-22 | visit c * rows + r is column c, row r |
| Windows.Lights | src/components/City.jsx:16-24 | the first n visits light at most n windows |
| Windows.Windows | src/components/City.jsx:14-26 | the reference window list the window loops are proved equal to; it holds at most one window per cell |
| Windows.LightsAreCentres | src/components/City.jsx:16-24 | the lit windows are the centres of the cells whose draw passes, in visiting order |
| Windows.Visit | src/components/City.jsx:17-23 | one inner iteration appends the centre of (c, r) exactly when its draw is at most 0.45 |
| Windows.WindowGrid | src/components/City.jsx:11-26 | the loops spend one draw per cell and return `Windows(...)`; no windows when either count is not positive; every window is inside the face |
| Windows.WindowsInside | src/components/City.jsx:19-22 | every window of a face lies strictly inside it |
| Windows.WindowCount | src/components/City.jsx:16-18 | the window count is the cell count minus the cells whose draw exceeds 0.45; zero when every draw exceeds it |
| Windows.WindowAtCell | src/components/City.jsx:16-22 | cell (c, r) lights a window if and only if its draw is at most 0.45, at the centre of column c, row r |
| Particles.SampleAt | src/components/Particles.jsx:18-25 | one particle starts at a height in [0, 70), with a speed in [0.02, 0.09) and a tint from the palette |
| Particles.Lift | src/components/Particles.jsx:37-38 | a height rises by 0.4 of the speed if and only if the result is not above 80, and otherwise wraps to 0; [0, 80] is kept |
| Particles.Drift | src/components/Particles.jsx:36-39 | one frame keeps the buffer length |
| Particles.DriftN | src/components/Particles.jsx:34-41 | n frames of the update, one after another; the buffer length is kept |
| Particles.DriftKeepsRange | src/components/Particles.jsx:34-41 | a frame keeps every height in [0, 80] and changes no x or z slot |
| Particles.DriftNKeepsRange | src/components/Particles.jsx:34-41 | any number of frames keeps every height in [0, 80] and every x and z slot |
| Particles.RiseBy | src/components/Particles.jsx:37-38 | until it would pass 80, each frame adds 0.4 of the speed to a height |
| Particles.SteadyRise | src/components/Particles.jsx:37-38 | until it would pass 80, a particle stands n * 0.4 * v higher after n frames |
| Particles.Samples | src/components/Particles.jsx:17-26 | the loop samples n particles after n iterations |
| Particles.SamplesAt | src/components/Particles.jsx:17-26 | particle i is drawn from draws k + 5i .. k + 5i + 4 |
| Particles.SamplesWell | src/components/Particles.jsx:18-24 | every sampled particle has its height, speed and tint in range |
| Particles.SlotsOf | src/components/Particles.jsx:20-25 | slots 3i .. 3i + 2 of the position and colour buffers and slot i of the velocity buffer hold particle i |
| Particles.SampledBuffers | src/components/Particles.jsx:17-26 | the sampled buffers are in range, and particle i read back from them is the one drawn for i |
| Particles.SetTriple | src/components/Particles.jsx:20-25 | three consecutive slot writes append a triple after the first j slots and leave every later slot alone |
| Particles.ParticleField.constructor | src/components/Particles.jsx:12-32 | three fresh buffers hold the coordinates, speeds and tints of the 800 sampled particles; the field is valid; each particle reads back as drawn |
| Particles.ParticleField.PlaceParticle | src/components/Particles.jsx:18-25 | one iteration draws particle i, extends the filled prefix by it, and leaves every later slot alone |
| Particles.ParticleField.Store | src/components/Particles.jsx:20-25 | the writes of one iteration put particle i into slots 3i .. 3i + 2, i and 3i .. 3i + 2, after the earlier particles, and leave every later slot alone |
| Particles.ParticleField.Step | src/components/Particles.jsx:34-41 | one frame replaces the positions with `Drift` of the old ones; colours and speeds are unchanged; the field stays valid |

## Left out

- Rendering is not modelled: JSX, three.js geometry and materials, bloom, the HUD and `App.jsx`.
- `useMemo` caching and the order in which React renders sibling and child components are not modelled. Each component gets its own segment of the draw stream, starting at an index it is given.
- `Antenna`'s per-frame beacon pulse (`City.jsx:81-85`) is not modelled, because it reads the clock. The phase draw is kept as a fraction of a full turn.
- Draws made inside JSX attributes are not modelled. These are the window `emissiveIntensity` (`City.jsx:36`) and the lower strip's `pick(EDGE_COLORS)` (`City.jsx:162`). The upper strip's `yFrac` draw (`City.jsx:155`) is a parameter of `Building.UpperStripHeight`. The antenna placement draws `rand(-b.bw * 0.35, b.bw * 0.35)` and `rand(-b.bd * 0.35, b.bd * 0.35)` (`City.jsx:181`, `City.jsx:183`) are the parameters `u` and `v` of `Building.AntennaSpot`.
- `Particles.SampleAt`: the ring placement `cos(a) * r`, `sin(a) * r` is a parameter `polar` of the model, because trigonometry is outside Dafny's reals. The model does not prove that x and z lie on the ring of radii [10, 90).
- The buffers are `Float32Array`s in the source, and all arithmetic there is IEEE double. The model uses exact reals, so it ignores rounding, and `Particles.Lift` compares exactly with 80.
- `pick` on an empty array returns `undefined` in JavaScript. `Utils.Pick` requires a non-empty array, because every call in the core passes a non-empty constant palette.
- `attr.needsUpdate` (`Particles.jsx:40`) is a signal to the renderer and has no model.
- The constructor's loop body is the method `ParticleField.PlaceParticle`. It draws the particle with `Particles.SampleAt` and writes it with `ParticleField.Store`. The three-slot writes go through `Particles.SetTriple`. These write the same values to the same slots in the same order as the source.
- Overlap between sibling buildings inside one block is not claimed, because the source does not prevent it. Only buildings of different blocks are proved apart.
