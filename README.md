# PBR sphere-grid demo: verified model of its data logic

The demo renders a grid of spheres whose material varies across the grid:
metallic grows from left to right, roughness from top to bottom. Apart from
WebGL and browser glue, `src/index.ts` contains a small amount of plain data
logic. This project models that logic in Dafny and proves properties of it:

- **Buffer packing** (`buffers.dfy`, module `FloatBuffers`).
  - `setFloatArray` and `setFloatVec3Array` copy scalars, or 3-tuples laid out row-major, into a `Float32Array`, index by index.
  - They are methods over `array<real>` with loop invariants. They are specified by `Overlay`, the buffer after the writes, and by `Flatten`, the row-major layout.
  - The source never checks bounds. An ECMAScript typed array ignores an assignment at or past its length, so the model needs no capacity precondition: slots past the end are simply not written.
  - `Application.init` packs four point lights into buffers allocated by `floatVec3Array(4)` and `floatArray(4)`. The model includes that packing.
- **Sphere layout** (`sphere_grid.dfy`, module `SphereGrid`).
  - `genSpheres` enumerates `rowCount x colCount` cells in row-major order. Each cell gets the ratios `x/(colCount-1)` and `y/(rowCount-1)` and a position on a `width x height` rectangle.
  - The model is a method with nested loops, proved equal to the row-major `Grid` function. Lemmas give each cell's index, the ratio bounds, the corners, the spacing, monotonicity along rows and columns, and the extent of the layout.
  - The spheres span the rectangle from its top-left corner to one spacing short of its bottom-right corner. So the layout is centred on `(centerX - width/(2·colCount), centerY + height/(2·rowCount))`, not on `(centerX, centerY)`. `CellExtent` states this.
- **Material inputs of `render`** (`shading.dfy`, module `Shading`).
  - `mix` is linear interpolation. The GUI colour is mapped from 0–255 to 0–1.
  - Each sphere is drawn with metallic equal to its x ratio and roughness equal to `mix(0.01, 1.0, yRatio)`.
  - The render loop is a method that returns the uniforms of each draw call, in draw order.

Numbers are modelled as `real`, with no float rounding. Sphere counts are `nat`.

## Model

| member | source | states |
|---|---|---|
| `FloatBuffers.Overlay` | src/index.ts:85-89 | after assigning `values[i]` to index `i`, a buffer keeps its length, holds `values[i]` at every index `i` below both lengths, and keeps its old value everywhere else |
| `FloatBuffers.OverlayFits` | src/index.ts:85-89 | when the values fit, the buffer becomes the values followed by its old tail |
| `FloatBuffers.OverlayIdempotent` | src/index.ts:85-89 | writing the same values twice leaves the buffer as writing them once |
| `FloatBuffers.Store` | src/index.ts:87 | an indexed assignment to a typed array changes exactly that slot when the index is in range, and nothing otherwise |
| `FloatBuffers.SetFloatArray` | src/index.ts:85-89 | the array becomes `Overlay(old contents, values)`: `arr[i] == values[i]` for every in-range `i < |values|`, and every index `>= |values|` is unchanged |
| `FloatBuffers.Flatten` | src/index.ts:95-99 | the row-major layout of `n` tuples has `3n` slots |
| `FloatBuffers.FlattenAt` | src/index.ts:95-99 | component `j` of tuple `i` sits at slot `3i + j` of the layout |
| `FloatBuffers.FlattenSlot` | src/index.ts:95-99 | conversely, slot `k` of the layout holds component `k % 3` of tuple `k / 3` |
| `FloatBuffers.ChunksFlatten` | src/index.ts:91-100 | reading the layout back three slots at a time gives back exactly the tuples, so the layout loses nothing |
| `FloatBuffers.SetFloatVec3Array` | src/index.ts:91-100 | the array becomes `Overlay(old contents, Flatten(values))`: `arr[3i + j] == values[i][j]` for every in-range slot, and every index `>= 3·|values|` is unchanged; the loops address slots 0, 1, …, 3·|values| − 1, each exactly once and in that order |
| `FloatBuffers.FloatArray` | src/index.ts:83 | `floatArray(len)` is a fresh zero-filled buffer of `len` slots |
| `FloatBuffers.FloatVec3Array` | src/index.ts:82 | `floatVec3Array(len)` is a fresh zero-filled buffer of `3·len` slots |
| `FloatBuffers.FlatLightPositions` | src/index.ts:216-221 | the four light positions, laid out row-major, are the twelve numbers `-0.8, -0.8, 1, -0.8, 0.8, 1, 0.8, -0.8, 1, 0.8, 0.8, 1` |
| `FloatBuffers.PackPointLights` | src/index.ts:216-225 | the position buffer holds the four light positions flattened (12 slots) and the power buffer holds `[20, 4, 20, 10]`; both buffers are filled completely |
| `SphereGrid.GenSpheres` | src/index.ts:44-76 | the nested loops return exactly `Grid(p)`, the `rowCount·colCount` spheres in row-major order |
| `SphereGrid.GridAt` | src/index.ts:60-73 | the grid has `rowCount·colCount` spheres, and the sphere of column `x` and row `y` is at index `y·colCount + x` |
| `SphereGrid.GridIndex` | src/index.ts:60-73 | conversely, index `k` holds the sphere of column `k % colCount` and row `k / colCount` |
| `SphereGrid.CellRatios` | src/index.ts:62-63 | both ratios lie in [0, 1]; the x ratio is 0 exactly on the first column and 1 exactly on the last, and the y ratio likewise for rows |
| `SphereGrid.AlongRow` | src/index.ts:54-69 | along a row, the y position and y ratio are constant, the x ratio strictly increases, and with `width > 0` the x position strictly increases |
| `SphereGrid.DownColumn` | src/index.ts:54-69 | down a column, the x position and x ratio are constant, the y ratio strictly increases, and with `height > 0` the y position strictly decreases |
| `SphereGrid.Spacing` | src/index.ts:54-69 | neighbours in a row are `width/colCount` apart in x; neighbours in a column are `height/rowCount` apart in y, going down |
| `SphereGrid.CellExtent` | src/index.ts:54-69 | for non-negative sizes, x positions lie in `[centerX − width/2, centerX + width/2 − width/colCount]` and y positions in `[centerY − height/2 + height/rowCount, centerY + height/2]`; mirrored columns and rows average to `centerX − width/(2·colCount)` and `centerY + height/(2·rowCount)` |
| `SphereGrid.GridCorners` | src/index.ts:57-73 | with at least two rows and two columns, the first sphere is at `(centerX − width/2, centerY + height/2)` with ratios (0, 0), and the last is one spacing short of the opposite corner with ratios (1, 1) |
| `SphereGrid.DefaultGrid` | src/index.ts:31-38 | the default layout is well-defined and yields 25 spheres, from `(−0.55, 0.55)` with ratios (0, 0) to `(0.33, −0.33)` with ratios (1, 1) |
| `Shading.MixEnds` | src/index.ts:78-80 | `mix(a, b, 0) = a` and `mix(a, b, 1) = b` |
| `Shading.MixBetween` | src/index.ts:78-80 | for `a <= b` and `r` in [0, 1], `mix(a, b, r)` lies in [a, b] |
| `Shading.MixIncreasing` | src/index.ts:78-80 | for `a < b`, `mix(a, b, r)` strictly increases with `r` |
| `Shading.AlbedoUniform` | src/index.ts:263-268 | each albedo component times 255 gives back the GUI channel |
| `Shading.ChannelRange` | src/index.ts:263-268 | a channel in [0, 255] maps into [0, 1]; it maps to 0 exactly when it is 0 and to 1 exactly when it is 255 |
| `Shading.AlbedoRange` | src/index.ts:263-268 | a GUI colour in [0, 255]³ gives an albedo in [0, 1]³ |
| `Shading.DefaultAlbedo` | src/index.ts:172-174 | the initial white GUI colour gives the albedo (1, 1, 1) |
| `Shading.SphereMaterial` | src/index.ts:283-284 | metallic equals the x ratio; roughness exceeds 0.01 by `yRatio·0.99`, an affine map of [0, 1] onto [0.01, 1] |
| `Shading.MaterialRange` | src/index.ts:283-284 | ratios in [0, 1] give metallic in [0, 1] and roughness in [0.01, 1] |
| `Shading.GridMaterials` | src/index.ts:283-284 | over a generated grid: metallic is in [0, 1], 0 exactly on the first column, 1 exactly on the last, and strictly increasing along a row; roughness is in [0.01, 1], 0.01 exactly on the first row, 1 exactly on the last, and strictly increasing down a column |
| `Shading.Render` | src/index.ts:277-289 | one draw per sphere, in order; each draw uses the GUI albedo divided by 255, the sphere's material and the sphere's position |
| `Shading.RenderedGridRanges` | src/index.ts:277-289 | when a generated grid is drawn with a GUI colour in [0, 255]³, every draw has albedo in [0, 1]³, metallic in [0, 1] and roughness in [0.01, 1] |
| `Shading.DefaultFrame` | src/index.ts:246-289 | a frame of the default scene has 25 draws, the first with material (0, 0.01) and the last with (1, 1), every material in range; a GUI colour in [0, 255]³ gives every albedo in [0, 1]³ |

## Left out

- `Application` construction, `init`, `resize` and the GPU side of `render` are not modelled. That covers WebGL context calls, async texture loading with its null checks, camera and `gl-matrix` matrix work, and the `uniforms` object beyond the entries above. All of these are I/O or calls into libraries not shown here.
- The `dat.gui` colour picker, the `requestAnimationFrame` loop and the `ResizeObserver` handler are browser event plumbing.
- src/shader/pbr-shader.ts only writes flags into a `defines` object owned by a `Shader` base class. src/shader/shader.ts is not part of this model.
- `Transform` and `combine()` are not modelled; src/transform.ts is not part of this model. A sphere keeps only the x and y position that `genSpheres` writes.
- IEEE-754 doubles and `Float32Array` float32 rounding are not modelled. Every number is an exact `real`.
- SphereGrid.GenSpheres: requires `Divisible(p)`. With exactly one row or one column and at least one cell, the source computes `0 / 0`, which is NaN in JavaScript. NaN is not modelled. A grid with no cell needs nothing.
- SphereGrid.GenSpheres: counts are `nat`. Negative or fractional `rowCount` and `colCount` are not modelled.
- Shading.AlbedoUniform: the GUI albedo is a triple. A `number[]` with fewer than three entries would give NaN components; that case is not modelled.
- FloatBuffers.SetFloatArray: the number-to-float32 conversion of stored values is not modelled (same for SetFloatVec3Array).
