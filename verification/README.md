# Smol Teapot: a verified model of the frame pipeline

This project models the core of a tiny wireframe renderer for the Flipper Zero
(`p1x_smol_teapot.c`) and proves properties of it in Dafny. It covers four parts:

- **Vector and matrix helpers** (`linalg.dfy`, module `LinAlg`). A 4x4 identity matrix is
  built cell by cell. The x, y and z rotations each overwrite four cells of a matrix. The
  row-vector product divides by the weight `w` only when `w` is non-zero. Dot product,
  cross product and subtraction have their usual definitions. Rotations take the cosine
  and sine of the angle as values instead of the angle.
- **Model store** (`teapot_model.dfy`, module `TeapotModel`). The compiled-in teapot has
  32 vertices and 36 indexed triangles. A `Mesh` holds the two tables as sequences, so the
  counts are the sequence lengths.
- **Per-frame geometry** (`pipeline.dfy`, module `Pipeline`). Each frame does these steps:
  - rotate every vertex about x, then y, then z;
  - scale it and translate it by the model position;
  - drop a face when a corner has depth below 1;
  - drop a face whose normal `cross(v2 - v1, v3 - v1)` has a dot product with
    (0, 0, -1) that is not negative;
  - project the corners with truncation toward zero (`x*110/z + 64`, `y*110/z + 32`);
  - drop a face whose three projected corners are all beyond one screen edge;
  - emit the outline `p1->p2`, `p2->p3`, `p3->p1` of every other face.

  A frame is the list of segments handed to the host's line drawing, in face order. The
  frame is given twice: as a recursive function, and as two loops shaped like the
  renderer's. The loops are proved equal to the function.
- **Main-loop decisions** (`app_loop.dfy`, module `AppLoop`). Each iteration decides
  whether a frame is due. The test takes the difference of two 32-bit tick readings
  modulo 2^32 and compares it with 100. The iteration then applies one polled key event
  to the rotation angles or to the running flag. When the frame is due, it issues a
  redraw and records the tick. `Step` is one iteration. `Run` repeats `Step` until the
  loop stops.

Numbers are mathematical reals, not single-precision floats. The C `(int)` cast is
modelled as an explicit truncation toward zero (`Pipeline.Trunc`). Tick readings are
integers in `[0, 2^32)`, and their subtraction wraps explicitly.

Three facts of `p1x_smol_teapot.c` shape the model:

- The projection has no vertical flip (`p1x_smol_teapot.c:312` adds 32 to `y*110/z`).
  A point above the optical axis lands in the lower half of the raster.
- The file has no framebuffer and no line rasterizer. Edges go to the host's line call
  (`p1x_smol_teapot.c:327-329`), so a frame is the list of segments passed to it.
- The Back key is handled inside the same Press-or-Repeat test as the other keys
  (`p1x_smol_teapot.c:375`, `:392`). It stops the loop only on a press or an auto-repeat.

## Model

| member | source | states |
|---|---|---|
| LinAlg.Identity | p1x_smol_teapot.c:88-94 | cell (i, j) of the identity is 1 exactly when i == j and 0 otherwise |
| LinAlg.InitIdentityMatrix | p1x_smol_teapot.c:88-94 | the nested loops over rows and columns produce that cell rule, which is the identity matrix |
| LinAlg.RotateXMatrix | p1x_smol_teapot.c:96-101 | [1][1]=c, [1][2]=-s, [2][1]=s, [2][2]=c; every cell outside the (1,2) block keeps its value |
| LinAlg.RotateYMatrix | p1x_smol_teapot.c:103-108 | [0][0]=c, [0][2]=s, [2][0]=-s, [2][2]=c; every cell outside the (0,2) block keeps its value |
| LinAlg.RotateZMatrix | p1x_smol_teapot.c:110-115 | [0][0]=c, [0][1]=-s, [1][0]=s, [1][1]=c; every cell outside the (0,1) block keeps its value |
| LinAlg.RotatedIdentityIsLinear | p1x_smol_teapot.c:96-115 | each rotation written onto an identity keeps row 3 and column 3 at (0, 0, 0, 1) |
| LinAlg.MultiplyMatrixVector | p1x_smol_teapot.c:117-128 | with a non-zero weight the result times w is the homogeneous product; with weight 0 the raw product is returned undivided |
| LinAlg.AffineProductNoDivide | p1x_smol_teapot.c:117-128 | a matrix whose column 3 is (0,0,0,1) yields w = 1, so the result is the undivided product |
| LinAlg.IdentityProduct | p1x_smol_teapot.c:117-128 | multiplying by the identity returns the input vector |
| LinAlg.RotateXProduct | p1x_smol_teapot.c:96-101 | the x rotation maps (x, y, z) to (x, c*y + s*z, c*z - s*y) |
| LinAlg.RotateYProduct | p1x_smol_teapot.c:103-108 | the y rotation maps (x, y, z) to (c*x - s*z, y, s*x + c*z) |
| LinAlg.RotateZProduct | p1x_smol_teapot.c:110-115 | the z rotation maps (x, y, z) to (c*x + s*y, c*y - s*x, z) |
| LinAlg.PlaneRotationIsometry | p1x_smol_teapot.c:96-115 | when c^2 + s^2 = 1 a 2x2 rotation block preserves the squared length of a pair |
| LinAlg.RotateXPreservesLength | p1x_smol_teapot.c:96-101 | when c^2 + s^2 = 1 the x rotation keeps x and the squared length |
| LinAlg.RotateYPreservesLength | p1x_smol_teapot.c:103-108 | when c^2 + s^2 = 1 the y rotation keeps y and the squared length |
| LinAlg.RotateZPreservesLength | p1x_smol_teapot.c:110-115 | when c^2 + s^2 = 1 the z rotation keeps z and the squared length |
| LinAlg.DotSymmetric | p1x_smol_teapot.c:130-132 | the dot product is symmetric, and a vector's dot product with itself is never negative |
| LinAlg.CrossOrthogonal | p1x_smol_teapot.c:134-138 | the cross product is perpendicular to both arguments |
| LinAlg.CrossAnticommutative | p1x_smol_teapot.c:134-138 | swapping the arguments negates the cross product |
| LinAlg.CrossSelfIsZero | p1x_smol_teapot.c:134-138 | a vector crossed with itself is zero, and so is a vector crossed with zero in either order |
| LinAlg.SubtractAddInverse | p1x_smol_teapot.c:140-144 | adding b back to a - b gives a; a - a is zero |
| TeapotModel.InitTeapotModel | p1x_smol_teapot.c:147-250 | 32 vertices and 36 faces, within the 256 and 100 capacities, with every face index in [0, 32) |
| TeapotModel.TeapotFacesHaveDistinctCorners | p1x_smol_teapot.c:194-249 | no teapot face repeats a vertex index |
| Pipeline.Trunc | p1x_smol_teapot.c:311-316 | the integer cast lies between 0 and its argument, less than 1 away from it, for both signs |
| Pipeline.TruncIsOdd | p1x_smol_teapot.c:311-316 | truncation of -x is the negation of truncation of x, unlike the floor |
| Pipeline.RotatePreservesLength | p1x_smol_teapot.c:267-276 | with genuine (cos, sin) pairs the x-then-y-then-z rotation keeps the squared length |
| Pipeline.PlaceScalesLength | p1x_smol_teapot.c:277-280 | scaling then translating puts the vertex at scale^2 times its squared length from the position |
| Pipeline.TransformIsRigid | p1x_smol_teapot.c:267-283 | a transformed vertex lies at squared distance scale^2 times the squared length of v from the position |
| Pipeline.TransformWithoutMotion | p1x_smol_teapot.c:252-283 | zero angles, scale 1 and the origin as position leave a vertex unchanged |
| Pipeline.TransformAllIsRigid | p1x_smol_teapot.c:267-283 | with genuine (cos, sin) pairs, every entry of the transformed table lies at squared distance scale^2 times the squared length of its model vertex from the position |
| Pipeline.TransformVertices | p1x_smol_teapot.c:267-283 | the loop over the vertex table stores the transform of vertex i at index i, for every i |
| Pipeline.Project | p1x_smol_teapot.c:310-316 | in front of the camera, x >= 0 lands at or right of column 64, and y >= 0 lands at or below row 32 (no flip); the reverse for negative coordinates |
| Pipeline.AxisProjectsToCentre | p1x_smol_teapot.c:311-312 | a point on the optical axis projects to (64, 32) |
| Pipeline.TriangleAt5Projection | p1x_smol_teapot.c:311-316 | (0,0,5), (1,0,5), (0,1,5) project to (64,32), (86,32), (64,54) |
| Pipeline.TriangleAt5IsDrawn | p1x_smol_teapot.c:286-331 | wound (0,0,5), (1,0,5), (0,1,5), the face passes every test and gives the outline (64,32)->(86,32)->(64,54)->(64,32) |
| Pipeline.TriangleAt5ReversedIsDropped | p1x_smol_teapot.c:297-309 | wound (0,0,5), (0,1,5), (1,0,5), the face fails the back-face test and gives no segments |
| Pipeline.FacesCameraIffNormalTowardZ | p1x_smol_teapot.c:297-309 | the back-face test dot(normal, (0,0,-1)) < 0 holds exactly when the normal's z is strictly positive |
| Pipeline.FaceSegments | p1x_smol_teapot.c:286-331 | a face gives 0 or 3 segments; it gives 3 exactly when every corner has depth >= 1, the normal's z is positive, and the projection is not off screen; then every divisor is >= 1 and the segments are p1->p2, p2->p3, p3->p1 |
| Pipeline.RepeatedCornerNeverDrawn | p1x_smol_teapot.c:297-309 | a face with two equal corners has the zero vector as its normal and is never drawn |
| Pipeline.OffScreenIffBoxMissesScreen | p1x_smol_teapot.c:318-324 | a face is rejected exactly when the bounding box of its projected corners misses the closed rectangle [0,128] x [0,64]; a corner on x = 128 still counts as on screen |
| Pipeline.RenderFaces | p1x_smol_teapot.c:286-331 | the segment count is 3 times the number of drawn faces, and each consecutive triple is a closed outline that is not off screen |
| Pipeline.RenderFacesAppend | p1x_smol_teapot.c:286-331 | segments come out in face order: rendering fs1 + fs2 gives the segments of fs1 followed by those of fs2 |
| Pipeline.NearFacesNeverDrawn | p1x_smol_teapot.c:290-295 | faces that each have a corner with depth below 1 contribute no segments |
| Pipeline.RenderFrame | p1x_smol_teapot.c:252-332 | a frame has at most 3 segments per face, grouped into closed triangle outlines that are not off screen |
| Pipeline.RenderFrameWithoutMotion | p1x_smol_teapot.c:252-283 | with no motion a frame draws the model's own vertices |
| Pipeline.TeapotFrameIsBounded | p1x_smol_teapot.c:286-295 | every face read of the teapot stays within its vertex table, and a teapot frame has at most 108 segments |
| Pipeline.SingleTriangleScenario | p1x_smol_teapot.c:252-332 | the triangle (0,0,5), (1,0,5), (0,1,5) with no motion is drawn as the outline (64,32)->(86,32)->(64,54)->(64,32) |
| Pipeline.ReversedTriangleScenario | p1x_smol_teapot.c:298-309 | the same triangle wound the other way faces away and draws nothing |
| Pipeline.NearTriangleScenario | p1x_smol_teapot.c:290-295 | the same triangle at depth 0.9 draws nothing |
| Pipeline.DrawFaces | p1x_smol_teapot.c:286-331 | the loop over faces with its skip branches emits exactly the segments of the recursive definition |
| Pipeline.DrawFace | p1x_smol_teapot.c:289-329 | one pass of the face loop, with its near, back-face and off-screen branches, emits exactly the segments the face contributes |
| Pipeline.RenderFrameLoop | p1x_smol_teapot.c:252-332 | the two loops of a frame compute exactly the frame's segment list |
| AppLoop.HandleInput | p1x_smol_teapot.c:375-398 | the rotation changes by its event's delta: Up/Down move x by +/-0.1, Left/Right move y by -/+0.1, Ok moves z by +0.1; Back clears the running flag; other event types change nothing; the frame time is untouched |
| AppLoop.OppositeKeysCancel | p1x_smol_teapot.c:377-388 | Up then Down, and Left then Right, return the rotation to where it was |
| AppLoop.ElapsedTicks | p1x_smol_teapot.c:366-367 | the elapsed count is the unique d in [0, 2^32) with last + d = now modulo 2^32 |
| AppLoop.FrameReadyAcrossWraparound | p1x_smol_teapot.c:366-367 | d ticks after the last frame, a frame is ready exactly when d >= 100, even when the counter wrapped in between |
| AppLoop.Step | p1x_smol_teapot.c:364-411 | a redraw is issued exactly when the elapsed ticks reach 100; the frame time becomes now exactly then and is otherwise unchanged; no event leaves rotation and running as they were |
| AppLoop.Run | p1x_smol_teapot.c:364-411 | a stopped loop does nothing; a started loop is still running at the end exactly when no polled event was a Back press or repeat |
| AppLoop.RunAccumulatesRotation | p1x_smol_teapot.c:364-398 | until Back is pressed the loop keeps running, and the final rotation is the initial rotation plus the sum of all event deltas |
| AppLoop.BackStopsLoop | p1x_smol_teapot.c:362-394 | a Back press ends the loop after that iteration, with the rotation unchanged |
| AppLoop.LastFrameTimeIsAReading | p1x_smol_teapot.c:404-411 | after any run the recorded frame time is the initial one or one of the tick readings |

Some definitions have no row of their own, because the rows of the lemmas about
them state their properties:

- `LinAlg.Dot` (`p1x_smol_teapot.c:130-132`), `LinAlg.Cross` (`:134-138`) and
  `LinAlg.Subtract` (`:140-144`). Their rows are `DotSymmetric`, `CrossOrthogonal`,
  `CrossAnticommutative`, `CrossSelfIsZero` and `SubtractAddInverse`.
- `LinAlg.RowProduct` (`:118-121`). Its row is `MultiplyMatrixVector`.
- `Pipeline.Rotate` (`:273-275`), `Pipeline.Place` (`:278-280`) and `Pipeline.TransformAll`
  (`:267-283`). Their rows are `RotatePreservesLength`, `PlaceScalesLength`,
  `TransformIsRigid`, `TransformAllIsRigid` and `TransformVertices`.
- `Pipeline.NearCulled` (`:291-293`). Its rows are `NearFacesNeverDrawn` and `FaceSegments`.
- `Pipeline.FaceNormal` and `Pipeline.FacesCamera` (`:299-309`). Their rows are
  `FacesCameraIffNormalTowardZ` and `RepeatedCornerNeverDrawn`.
- `Pipeline.OffScreen` (`:319-322`). Its row is `OffScreenIffBoxMissesScreen`.
- `AppLoop.FrameReady` (`:367`). Its rows are `FrameReadyAcrossWraparound` and `Step`.

## Left out

- Host framework glue: the message queue, `input_callback`, viewport registration, the
  text drawn by `render_callback`, logging and cleanup. None of it decides anything the
  model covers.
- The mutex and its acquisition timeout. An event whose lock acquisition fails is
  dropped in the source; the model always applies the polled event.
- The queue poll timeout (0 or 100 ticks) and `furi_delay_ms`. The model receives each
  iteration's poll result and tick reading as inputs.
- `canvas_clear` and `canvas_draw_line`. These are host calls, so a frame is the list
  of segments passed to the line call.
- Single-precision rounding and the precision of `sinf`/`cosf`. The model uses reals,
  and rotations take the cosine and sine as values. On floats, `OppositeKeysCancel`
  holds only up to rounding.
- The range of the C `(int)` cast. Projected coordinates are unbounded integers. A
  projection beyond the range of `int` is undefined in C and is not modelled.
- The program's fixed frame parameters. It renders at scale 5 with the model at
  (0, 0, 30) (`p1x_smol_teapot.c:38-39`), and the angles start at zero (`:37`). The model
  takes orientation, scale and position as parameters, so its frame results hold for every
  value, these included.
- The static arrays beyond the model's counts. The vertex and face tables are sequences
  of exactly the used length.
- Pipeline.Project: its contract only states on which side of the screen centre a point
  lands. The exact values are pinned by `Pipeline.TriangleAt5Projection` and
  `Pipeline.AxisProjectsToCentre`.
