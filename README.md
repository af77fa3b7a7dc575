# CircleGeometry: the quad-field buffer builder

`CircleGeometry` builds the vertex data for a field of `numCircle` "circle"
billboards. Each one is a square quad of side `circleWidth`, centred on its
local origin. The constructor stores the size and the count. It sets
`circleHeight` to `circleWidth`, and `circleHalfWidth` and `circleHarfHeight`
to half of it. It then runs `init`. For every quad `i`, `init` draws one
random triple and pushes onto five flat arrays:

- `vertices`: four corners, x, y and z each. The order is top-left,
  top-right, bottom-left, bottom-right.
- `uvs`: the unit-square texture coordinates (0,0), (1,0), (0,1), (1,1).
- `circleIndices`: the quad ordinal `i`, once per corner.
- `randomValues`: the quad's random triple, once per corner.
- `indices`: two triangles, `4i+0, 4i+2, 4i+1` and `4i+2, 4i+3, 4i+1`.

The Dafny model is one module, `QuadField`, in `CircleGeometry.dfy`.

- The class `QuadField.CircleGeometry` keeps the source's fields. The five
  arrays are `seq` fields that `Init` extends by appending.
- The recursive functions `Vertices`, `Uvs`, `CircleIndices`, `RandomValues`
  and `Indices` give each buffer after `n` quads, one block per quad. The
  constructor and `Init` are proved to produce exactly these.
- The lemmas say what each block holds. They also relate the buffers to one
  another: a corner's position, texture coordinate, quad ordinal and random
  triple; triangle bounds, ownership, coverage and winding; and when the
  `Uint16Array` copies are lossless.

`Math.random()` becomes an input: `randoms: seq<RandomTriple>`, where
`randoms[i]` holds the three values drawn for quad `i`. JavaScript numbers
become `real` for coordinates and random values, and `int` for ordinals and
indices. The halving `circleWidth / 2` is exact for every finite width unless
|circleWidth| < 2^-1021 and its last significand bit is set (`5e-324 / 2` is
0, and `(2^-1022 + 2^-1074) / 2` is 2^-1023, in JavaScript).

Points about the code that shape the model:

- The code rejects neither a non-positive width nor a negative count. A
  count of zero or less runs the loop zero times (`Iterations`). Any width,
  including zero or a negative one, gives the corners `±circleWidth/2`.
- Each quad pushes six triangle indices, so 3 quads give 18 (`Indices`,
  `IndicesOfQuad`).
- `init` appends to whatever the arrays already hold and never clears them.
  `Init` is therefore stated relative to the old contents. The constructor
  starts from empty arrays.

## Model

| member | source | states |
|---|---|---|
| QuadField.Iterations | src/ts/threeJsTest/CircleGeometry.ts:42 | The trip count of the loop: the first counter value at which the guard `i < numCircle` fails, with the last value that entered the body passing it. |
| QuadField.Vertices | src/ts/threeJsTest/CircleGeometry.ts:42-97 | After `n` quads, `vertices` holds `12*n` numbers: 4 corners × xyz. |
| QuadField.Uvs | src/ts/threeJsTest/CircleGeometry.ts:42-100 | After `n` quads, `uvs` holds `8*n` numbers: 4 corners × uv. |
| QuadField.CircleIndices | src/ts/threeJsTest/CircleGeometry.ts:42-102 | After `n` quads, `circleIndices` holds `4*n` ordinals, one per corner. |
| QuadField.RandomValues | src/ts/threeJsTest/CircleGeometry.ts:42-106 | After `n` quads, `randomValues` holds `12*n` numbers: 4 corners × one triple. |
| QuadField.Indices | src/ts/threeJsTest/CircleGeometry.ts:42-116 | After `n` quads, `indices` holds `6*n` entries: two triangles per quad. |
| QuadField.ToUint16 | src/ts/threeJsTest/CircleGeometry.ts:120-122 | A `Uint16Array` element lies in [0, 65536) and equals the stored integer exactly when that integer is already in range. |
| QuadField.VerticesOfQuad | src/ts/threeJsTest/CircleGeometry.ts:53-97 | Quad `i`'s 12 vertex numbers are exactly `(-hw,hh,0) (hw,hh,0) (-hw,-hh,0) (hw,-hh,0)`. |
| QuadField.UvsOfQuad | src/ts/threeJsTest/CircleGeometry.ts:57-100 | Quad `i`'s 8 uv numbers are exactly (0,0), (1,0), (0,1), (1,1). |
| QuadField.CircleIndicesOfQuad | src/ts/threeJsTest/CircleGeometry.ts:60-102 | All four `circleIndices` entries of quad `i` are `i`. |
| QuadField.RandomValuesOfQuad | src/ts/threeJsTest/CircleGeometry.ts:44-106 | Quad `i`'s 12 random numbers are the `i`-th input triple, repeated for each of the 4 corners. |
| QuadField.IndicesOfQuad | src/ts/threeJsTest/CircleGeometry.ts:109-115 | `indices[6i..6i+6]` is exactly `4i+0, 4i+2, 4i+1, 4i+2, 4i+3, 4i+1`. |
| QuadField.VertexPosition | src/ts/threeJsTest/CircleGeometry.ts:53-97 | Vertex `4i+k` sits at corner `k`: x is `-hw` for even `k` and `hw` for odd `k`; y is `hh` for `k < 2` and `-hh` otherwise; z is 0. |
| QuadField.VertexUv | src/ts/threeJsTest/CircleGeometry.ts:57-100 | Vertex `4i+k` has u = `k % 2` and v = `k / 2`. |
| QuadField.VertexCircleIndex | src/ts/threeJsTest/CircleGeometry.ts:60-102 | Every vertex `v` carries the ordinal `v / 4` of the quad it belongs to. |
| QuadField.VertexRandomValues | src/ts/threeJsTest/CircleGeometry.ts:44-106 | Every corner of quad `i` carries the three values drawn for quad `i`, in order. |
| QuadField.QuadIsSquare | src/ts/threeJsTest/CircleGeometry.ts:33-97 | With `hw = hh = w/2`, each quad is an axis-aligned square of side `w` in the plane z = 0, and its corners sum to (0,0,0). |
| QuadField.IndicesInOwnQuad | src/ts/threeJsTest/CircleGeometry.ts:109-115 | Every triangle index lies in [0, 4n). It names a corner of the quad that owns the triangle, and that corner's `circleIndices` entry is this quad's ordinal. |
| QuadField.EveryCornerIndexed | src/ts/threeJsTest/CircleGeometry.ts:109-115 | Every one of the `4n` vertices is used by at least one triangle. |
| QuadField.QuadTrianglesShareDiagonal | src/ts/threeJsTest/CircleGeometry.ts:109-115 | A quad's six indices use corners 0 and 3 once, and corners 1 and 2 twice (the shared diagonal). |
| QuadField.CornerTrianglesWinding | src/ts/threeJsTest/CircleGeometry.ts:109-115 | Corner triangles (0,2,1) and (2,3,1) both have signed area `4*hw*hh`. |
| QuadField.TrianglesWindCounterClockwise | src/ts/threeJsTest/CircleGeometry.ts:53-115 | Both triangles of every quad, looked up through `indices` in `vertices`, have the same signed area `4*hw*hh`, and both are counter-clockwise (positive area) whenever `hw*hh > 0`, which holds for every non-zero width since the constructor sets `hw == hh`. |
| QuadField.IndicesFitUint16 | src/ts/threeJsTest/CircleGeometry.ts:109-122 | The `Uint16Array` copy of `indices` keeps every entry if and only if `4*n <= 65536`. |
| QuadField.CircleIndicesFitUint16 | src/ts/threeJsTest/CircleGeometry.ts:60-120 | The `Uint16Array` copy of `circleIndices` keeps every entry if and only if `n <= 65536`. |
| QuadField.AppendOnly | src/ts/threeJsTest/CircleGeometry.ts:42-116 | The buffers for quads `0..m-1` are a prefix of those for quads `0..n-1` whenever `m <= n`. Later iterations only append. |
| QuadField.CircleGeometry.constructor | src/ts/threeJsTest/CircleGeometry.ts:32-37 | Sets `circleHeight = circleWidth`, both halves to `circleWidth/2` and `numCircle`. Starting from empty arrays, it leaves exactly the five buffers for `Iterations(numCircle)` quads. |
| QuadField.CircleGeometry.Init | src/ts/threeJsTest/CircleGeometry.ts:40-116 | Each array becomes its old contents followed by the buffer for `Iterations(numCircle)` quads, with quad `i` using `randoms[i]`. With `numCircle <= 0` nothing changes. |
| QuadField.CircleGeometry.PushQuad | src/ts/threeJsTest/CircleGeometry.ts:43-115 | One loop iteration appends exactly one quad's block to each of the five arrays. |

## Left out

- The hand-off to three.js after the loop is not modelled (src/ts/threeJsTest/CircleGeometry.ts:118-123). It covers `BufferAttribute`, `addAttribute`, `setIndex` and `computeVertexNormals`, and the `geometry` field that receives them. These belong to a foreign library. Only the `Uint16Array` conversion of the two integer buffers is modelled (`ToUint16`).
- The `Float32Array` copies of `vertices`, `randomValues` and `uvs` are not modelled. They are floating-point narrowing.
- `Math.random()` is an input sequence of triples. The model does not assume the values lie in [0, 1), and no property needs it.
- QuadField.CircleGeometry.Init: requires at least `Iterations(numCircle)` triples. The finite input stands in for a random source that never runs out.
- QuadField.CircleGeometry.Init: `numCircle` is an integer. A fractional count, which would make the loop run `max(0, ceil(numCircle))` times, and `NaN` are not modelled.
- QuadField.CircleGeometry.Init: the `seq` buffers are unbounded, so the model never fails. JavaScript arrays hold at most 2^32-1 elements, so the `push` calls throw `RangeError` once `vertices` or `randomValues` would pass that cap, which happens when `numCircle` exceeds 357,913,941. That error path is not modelled.
- Coordinates are exact reals. A non-finite `circleWidth` (±Infinity or NaN) is not modelled. A width with |circleWidth| < 2^-1021 whose last significand bit is set, whose half rounds, is not modelled. The -0 that the negated half-sizes `-this.circleHalfWidth` and `-this.circleHarfHeight` give for width 0 is not modelled either (src/ts/threeJsTest/CircleGeometry.ts:53, 81, 82, 96); the model has a single 0.
- QuadField.QuadIsSquare: the side `w` holds over exact reals. When |circleWidth| < 2^-1021 and its last significand bit is set, the halving at src/ts/threeJsTest/CircleGeometry.ts:34-35 rounds. In JavaScript `5e-324` then gives a quad of side 0, and `2^-1022 + 2^-1074` gives a quad of side 2^-1022.
- The particle-field controller in src/ts/threeJsTest/threeJsTest3.ts is not part of this model. That covers renderer, camera and material wiring, resize handling, `setUniform` and the animation loop, as well as its GLSL vertex and fragment shaders (trigonometry and colour conversion run on the GPU).
- The other demos are not part of this model: src/ts/threeJsTest.ts, src/ts/threeJsTest2.ts, src/ts/webglTest.ts and src/ts/canvasTest.ts. They contain only scene setup, DOM events and WebGL calls.
