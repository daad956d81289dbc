# Balls on Pluto — the terrain-relative core in Dafny

A Dafny model of the spatial logic of the game *Balls on Pluto*. The player
walks a character over a triangle-mesh terrain and picks up balls, which adds
to a score. The props are scattered at random. The camera either trails the
player or flies freely. The model covers:

- **Terrain height query** (`Terrain`). A point-in-triangle test on the (x, z)
  projection and plane interpolation of y. The highest containing triangle
  wins, with a -0.8 fallback.
- **Prop placement** (`Placement`). Rejection sampling under an attempt budget,
  with a closed exclusion rectangle and same-call spacing. Spacing also holds
  against a category-tagged ledger shared by all calls of one scene build, with
  per-category overrides.
- **Collision proxies** (`Collision`). Bounding cylinders that the player may
  not enter. Proxies of the ground model are skipped.
- **The player's cached height lookup** (`HeightCache`). The cache key is the
  position rounded to one decimal. The whole cache is cleared once a second has
  passed.
- **The locomotion step** (`Locomotion`). Turning, the proposed move, the
  inclusive bounds gate and the terrain snap. Then the slope gate, which runs
  only when the height changes by more than 0.1. Then the collision gate,
  ending in commit or keep. Ball pick-up is here too.
- **The camera mode machine** (`CameraControl`). The third-person/free toggle,
  free flight and third-person follow.
- **Wavefront OBJ de-indexing** (`ObjLoader`). Line classification, face corners
  of the form `v/vt/vn` (an empty or missing index means 0), and flattening
  through the zero dummy entries.
- **Scene build** (`Scene`). The static proxies from the model table, and the
  five placement calls in their fixed order sharing one ledger. Every prop is
  snapped onto the terrain, and bark, cactus and rock instances are registered
  as proxies.
- **One game-loop frame** (`Frame`). Ball removal by descending index with a
  score count, and the camera toggle on the rising edge of C. Then the mode
  dispatch, the monkey's patrol and the spinning angles.

Coordinates are `real`. A length comparison `|v| < s` is written as a comparison
of squares (`Base.Within`). Trigonometry and vector normalisation are fields of
a `MathLib` value passed in. The clock reading, the frame time, the key states,
the random draws, the file contents and decimal-number parsing are inputs too.

The height cache is keyed by the position rounded to 0.1. Because of that
rounding it is not a pure speed-up: it can change an answer.
`HeightCache.SameCellSameAnswer` shows that a second query anywhere in the same
0.1 cell returns the first query's value, not the height at the second point.
The cache is exact only for points on the 0.1 grid
(`HeightCache.GridQueriesAreExact`).

## Model

| member | source | states |
|---|---|---|
| Base.WithinIsLengthBelow | player.py:35-36 | The squared test `Within(d2, r)` holds exactly when some non-negative length whose square is `d2` is below `r`, i.e. it is `glm.length(..) < r`. |
| Terrain.SidesSumToArea | init.py:272-278 | The three edge signs of the containment test always add up to twice the triangle's signed (x, z) area. |
| Terrain.ConvexCombinationInside | init.py:272-283 | Every convex combination of the three corners passes the containment test: the interior, the edges and the corners all count as inside. |
| Terrain.VerticesInside | init.py:272-283 | Each corner of a triangle passes its own containment test. |
| Terrain.InsideIsConvexCombination | init.py:272-283 | Conversely, on a triangle of non-zero area every accepted point is a convex combination of the corners, with the normalised edge signs as weights. |
| Terrain.PointInTriangleSymmetric | init.py:272-283 | The test gives the same answer for the reversed winding order and for a rotated corner order. |
| Terrain.HeightFor | init.py:285-295 | The height for a triangle with normal n through v1 (`InterpolateHeight` passes the cross product of the edges). No answer exactly when n is zero, i.e. for collinear corners. A near-vertical normal (unit normal's \|y\| < 0.001) answers v1.y. Otherwise the answer lies on the plane through v1 with normal n. |
| Terrain.PlanePoint | init.py:294-295 | Solving `n·p + d = 0` with `d = -n·v1` for y gives a point of that plane. |
| Terrain.InterpolateAtCorners | init.py:285-295 | On a triangle that is neither degenerate nor near-vertical, the interpolated height above each corner is that corner's height. |
| Terrain.InterpolateFlat | init.py:285-295 | A level triangle of non-zero (x, z) area answers its common height everywhere. |
| Terrain.MaxOf | init.py:256-263 | The scan's running maximum: no answer iff no triangle contributed; otherwise it is one of the contributions and is at least every other. |
| Terrain.TerrainHeight | init.py:237-266 | -0.8 when \|x\| or \|z\| exceeds 1000 or no complete triangle contains the point; otherwise a contributing triangle's height that is at least every other contribution. |
| Terrain.TrailingVerticesIgnored | init.py:248-250 | One or two vertices after the last complete triangle never change the answer. |
| Terrain.HigherOfTwoWins | init.py:256-261 | When two triangles contain the point, the answer is the higher of their plane heights, whichever comes first. |
| Placement.UniformWithin | init.py:188-189 | A unit draw `u` in [0, 1] gives `uniform(lo, hi)` within [lo, hi]. |
| Placement.Run | init.py:185-228 | The attempt loop from attempt `a` with the points `ps` so far only ever appends to `ps`, and stops after between `a` and `20·count` attempts. |
| Placement.ClearCandidateAccepted | init.py:186-224 | When the loop is still running and the current draw is outside the exclusion rectangle, clear of this call's points and clear of the ledger, that draw is the next accepted point. |
| Placement.RejectedCandidateDropped | init.py:192-222 | A draw that fails any of the three checks only spends an attempt: the rest of the loop runs as if it had never been drawn. |
| Placement.FirstClearDrawAccepted | init.py:185-224 | A call that wants at least one point keeps its first draw whenever that draw is outside the exclusion rectangle and clear of the ledger. |
| Placement.RunFacts | init.py:185-235 | The loop from no points at attempt 0 returns at most `count` points, uses every attempt when short, and each point is a drawn candidate at y = `height_offset`, outside the exclusion rectangle, spaced from the call's earlier points and from the ledger entries before it, and inside [lo, hi]² for unit draws. |
| Placement.Attempt | init.py:186-224 | One pass of the loop advances `Run` by one attempt, and the ledger it keeps stays the original ledger followed by the accepted points, tagged. |
| Placement.Attempts | init.py:168-235 | The loop computes exactly `Run` from no points at attempt 0, and the shared ledger grows by the accepted points, tagged, in order. |
| Placement.Generate | init.py:166-235 | The result is exactly `Run` of the call, so a draw is kept exactly when it passes all three checks. At most `count` positions after at most `20·count` draws, and all draws are used when the result is short. Each position is a drawn candidate at y = `height_offset`, outside the closed exclusion rectangle, inside [lo, hi]² for unit draws, and spaced `min_spacing` from the call's earlier points. The ledger grows by exactly the positions, in order, each tagged with the category and spaced from every earlier entry by the category-pair spacing. |
| Placement.CallSpacedByMax | init.py:201-224 | Two points of one call are at least max(`min_spacing`, the category's spacing) apart, because the earlier point is already in the ledger when the later one is checked. |
| Placement.SpacedAfterPrefix | init.py:222-224 | Appending to the ledger never disturbs the spacing facts about earlier entries. |
| Collision.Collides | player.py:162-180 | True iff some proxy of a model other than the ground is within 1.0 vertically (proxy y plus its height offset) and horizontally closer than 0.5 + its scale. |
| Collision.AddCollisionObject | player.py:52-58 | Registration appends exactly one proxy and keeps the earlier ones in order. |
| Collision.AddedProxyDecides | player.py:162-177 | After registering a proxy, the collision verdict is the old verdict or that proxy's own hit; a ground proxy adds nothing. |
| HeightCache.RoundTenths | player.py:69 | `round(a, 1)` in tenths: within one half of `10a`, and a tie goes to the even neighbour. |
| HeightCache.RoundTenthsNearest | player.py:69 | Any integer strictly closer than one half to `10a` is the rounding. |
| HeightCache.RoundTenthsExact | player.py:69 | A value that is a whole number of tenths keeps it. |
| HeightCache.FreshHeight | player.py:75-94 | A miss where no triangle contains the point gives -1.6 (the -0.8 no-hit height plus the -0.8 ground offset). Otherwise it gives the highest containing triangle's height lowered by 0.8: some containing triangle has that height, and none is higher. |
| HeightCache.ClearOld | player.py:60-64 | The whole cache is emptied and the clock restarted only when strictly more than one second has passed; otherwise nothing changes. |
| HeightCache.ClearKeepsSound | player.py:60-64 | Clearing keeps every stored value a fresh height of its own cell. |
| HeightCache.Query | player.py:66-95 | A hit returns the stored value and leaves the cache alone. An empty mesh answers -0.8 and stores nothing. Otherwise the fresh height is returned and stored under the query's key. Existing entries are never changed and at most that one key is added. |
| HeightCache.QueryKeepsSound | player.py:72-94 | Queries keep every stored value a fresh height of its own cell, and each answer on a non-empty mesh is such a height. |
| HeightCache.SameCellSameAnswer | player.py:69-73 | A second query in the same rounded cell, even at a different point, returns the first answer and leaves the cache unchanged. |
| HeightCache.GridQueriesAreExact | player.py:69-94 | For points on the 0.1 grid the cache is transparent: the answer is the fresh height, and that stays true of every entry. |
| Locomotion.NewPlayer | player.py:6-47 | The player starts at (-15, ·, -15), facing (0, 0, -1) at heading 90, with no proxies, and stands 0.1 above the looked-up ground height. It keeps the given mesh and ground model. The cache's first generation starts at the clock reading `now`, and it holds just the start cell's height (nothing for an empty mesh). |
| Locomotion.AddCollisionObject | player.py:52-58 | Only the proxy list changes, by one appended proxy. |
| Locomotion.TurnHeading | player.py:187-200 | A adds `90·dt` to the heading and D subtracts it, so both cancel. Either key recomputes the facing direction from the new heading; with neither, heading and direction stay. |
| Locomotion.SlopeAngle | player.py:133-156 | The slope reading is never negative. |
| Locomotion.ScanVerdict | player.py:142-156 | The early-exit probe loop stays within 30° exactly when the running maximum did and every remaining probe of the full scan does. |
| Locomotion.SlopeAngleVerdict | player.py:133-156 | The slope test passes iff all four probes at 0°, 90°, 180° and 270°, queried in order, are within 30° of the centre height. |
| Locomotion.TryMove | player.py:214-227 | The target keeps the proposal's (x, z) at ground height + 0.1. The move is taken exactly when the target hits no proxy and, if the height changes by more than 0.1, the slope test (run on the cache after the height query) passes. |
| Locomotion.Update | player.py:182-231 | The proxies, mesh and ground model never change. Heading and direction follow the turn even when the move is refused. With neither W nor S the position stays. |
| Locomotion.UpdateCommitted | player.py:203-227 | The position changes only by a committed move. The new point is the proposed step along the frame's direction (forward when W is held, even with S), inside the inclusive bounds \|x\| ≤ 59, \|z\| ≤ 100, 0.1 above the ground answer, hitting no proxy, and slope-checked when the height changed by more than 0.1. |
| Locomotion.UpdateTakesFreeMove | player.py:203-227 | An in-bounds move whose target hits no proxy is always taken when the height change is at most 0.1, and also when it is larger but the slope test passes. |
| Locomotion.UpdateKeepsCacheSound | player.py:182-227 | Every value the step stores in the cache is a fresh height of its own cell. |
| Locomotion.CollectBalls | player.py:31-38 | The ascending indices of exactly the balls strictly within 1.0 of the player on the ground plane. |
| CameraControl.NewCamera | camera.py:5-25 | A new camera is in third-person mode with the given position, view direction, up vector and angle, and its right vector is the normalised cross product of front and up. |
| CameraControl.Toggle | camera.py:58-72 | The mode always changes and the position stays. Entering third-person mode resets the view to (0, 0, -1) and the angle to 0. Leaving it keeps the view and sets the angle to atan2(front.x, -front.z) in degrees, so the free camera goes on facing where it looked. |
| CameraControl.ToggleTwice | camera.py:58-72 | Two toggles restore the mode; a round trip from third-person mode only resets the view and angle. |
| CameraControl.Update | camera.py:27-56 | The free-flight step keeps the mode and the up vector. In free mode A adds `90·dt` to the angle and D subtracts it; the view direction is then the normalised (sin angle, old front y, -cos angle) and the right vector the normalised cross product with world up. |
| CameraControl.Fly | camera.py:46-56 | The four movement keys in order: W adds the step and S subtracts it on every axis, 0 adds the lift to y and 9 subtracts it. |
| CameraControl.UpdateFlight | camera.py:38-50 | Horizontally a free camera moves `5·dt` along the new view direction for W and back for S. |
| CameraControl.UpdateClimb | camera.py:38-56 | Vertically a free camera moves `5·dt` times the new view's y for W (back for S), plus `5·dt` up for 0 and down for 9. |
| CameraControl.UpdateOpposingKeysCancel | camera.py:46-56 | With W and S both held or both released the camera does not move horizontally; with 0 and 9 also paired it does not move at all. |
| CameraControl.UpdateVerticalKeys | camera.py:52-56 | Without W or S, 0 raises and 9 lowers a free camera by `5·dt` each, and (x, z) stays. |
| CameraControl.UpdateOnlyInFree | camera.py:31 | In third-person mode the free-flight step changes nothing. |
| CameraControl.Follow | camera.py:74-88 | Mode, angle and up vector stay; a free camera is left unchanged. |
| CameraControl.FollowGeometry | camera.py:78-88 | The trailing camera sits at (px - 5·dx, py + 2, pz - 5·dz) and looks toward the point one unit above the player. |
| ObjLoader.Strip | objloader.py:35 | No longer than the input, with no whitespace at either end, and blank-free text is returned unchanged. |
| ObjLoader.StripSlice | objloader.py:35 | The stripped line is a slice of the input with only whitespace before and after it. |
| ObjLoader.SplitJoinWords | objloader.py:42 | Whitespace splitting gives back any list of non-empty blank-free words joined by single blanks. |
| ObjLoader.JoinSplitOn | objloader.py:67 | Joining the `/`-separated pieces with `/` rebuilds the corner text. |
| ObjLoader.ParseShowInt | objloader.py:68-70 | Every integer index is read back from its decimal spelling. |
| ObjLoader.OtherLinesIgnored | objloader.py:35-58 | A line that, stripped, starts with none of `v `, `vt `, `vn `, `f ` contributes nothing (blank lines included). |
| ObjLoader.IgnoredIffNoKeyword | objloader.py:35-58 | A line contributes nothing exactly when, stripped, it starts with none of the four keywords; a keyword line is always read or rejected. |
| ObjLoader.FoldAppend | objloader.py:34-79 | Reading a file in two parts is reading the first part and then the second. |
| ObjLoader.IgnoredLineDropped | objloader.py:35-58 | A line that contributes nothing can be deleted anywhere without changing the result. |
| ObjLoader.DataAndFaceCommute | objloader.py:76-89 | A data line and a neighbouring face line can be swapped without effect, so a face may use vertices defined later in the file. |
| ObjLoader.FaceAddsItsCorners | objloader.py:58-79 | A face of k corners appends exactly k entries to each index list, in corner order, with no triangulation. |
| ObjLoader.Resolve | objloader.py:85-89 | Loaded iff every corner's indices are valid Python indices into the final tables. The three output lists then have one entry per corner, each the looked-up record. |
| ObjLoader.LoadObj | objloader.py:4-92 | An unopenable file gives `NotOpened`, and only it. A line that cannot be read gives `Malformed`. A file whose lines all read loads exactly when every corner's three indices are valid Python indices into the final tables. It then has one entry per face corner in each list, and each position, texture coordinate and normal is the record its index refers to. |
| ObjLoader.OmittedIndexIsOrigin | objloader.py:21-23 | The zero dummies survive the whole file, so index 0 (omitted or written) resolves to the zero position, texture coordinate or normal. |
| Scene.SceneStaticProxies | Main.py:137-142 | The model table yields seven static proxies, in table order. Rock, monkey, sphere, cube and hummingbird sit at their initial translations. Bark and cactus1 have no transform entry and sit at the origin. Each has its type's scale and height offset. |
| Scene.StaticProxiesAppend | Main.py:138-142 | The proxies of a concatenated model list are the proxies of each part, in order. |
| Scene.StaticProxiesCollidable | Main.py:139 | Only models with a collision entry ever contribute a static proxy. |
| Scene.ExtendSpaced | Main.py:146-153 | One placement call keeps the shared ledger spaced: every entry kept the spacing its own call demanded from all entries before it. |
| Scene.PlaceCategory | Main.py:148-153 | One category's call returns exactly the positions the reference attempt loop `Placement.Run` accepts from the draws it is given, and hands on the draws it did not use. It stays within its count and draw budget, avoids the monkey's path when excluded, keeps the ledger spaced and places at the category's height offset. The ledger grows by exactly the call's positions, in order, each tagged with the model's category name. |
| Scene.PlaceStep | Main.py:148-153 | One category's call, as a function: it spends at most twenty draws per requested prop, so the next call still has its budget. |
| Scene.FirstBarkPlaced | Main.py:146-148 | On a cleared ledger, a first draw outside the monkey's path becomes the first bark position. |
| Scene.Anchor | Main.py:160-179 | Every prop keeps its (x, z) and stands at the terrain height there plus its type's offset. |
| Scene.InstanceProxies | Main.py:190-208 | One proxy per placed instance, at its position, with its type's scale and height offset. |
| Scene.BuildScene | Main.py:144-208 | The props have the (x, z) and the ledger of `ScenePlacement`: the five calls in source order, each running on the draws the previous one left. The scene holds at most 10 bark, 3 rock, 100 cactus, 20 ball and 100 grass props. All but the grass avoid the monkey's path. Every prop stands on the terrain with its offset. The ledger is spaced. It holds the props block by block in generation order (bark, rock, cactus1, ball, grass), and each entry carries its category and its prop's (x, z), and the proxies are the static ones followed by the bark, cactus and rock instances. |
| Scene.LedgerOrder | Main.py:146-153 | Five calls appending their tagged positions to a cleared ledger leave it as five consecutive blocks, in call order. Each entry of a block has the block's category and the (x, z) of the matching anchored prop. |
| Scene.SceneProxiesCollidable | Main.py:190-208 | Balls are never obstacles: every scene proxy is of a collidable type. |
| Scene.SceneProxiesLayout | Main.py:190-208 | After the seven static proxies come one proxy per bark, then per cactus, then per rock instance, each at its own position. |
| Frame.PopAll | Main.py:273-278 | Popping the collected indices from the largest down removes exactly those balls, keeps the rest in order, and adds one to the score per index. |
| Frame.SurvivorsMembers | Main.py:274-277 | A surviving ball is one whose index was not collected, and every such ball survives. |
| Frame.NoBallLeftInReach | Main.py:272-278 | After collection no remaining ball is within reach of the position used for the check, and every ball out of reach is still there. |
| Frame.ToggleFlips | Main.py:282-283 | The toggle flips the camera mode. |
| Frame.ModeAfterParity | Main.py:280-284 | Over any run of frames the mode ends where it started exactly when C was freshly pressed an even number of times. |
| Frame.HeldKeyTogglesOnce | Main.py:280-284 | Holding C over many frames counts as one press, or none if it was already held. |
| Frame.EscapedRunStaysOut | Main.py:294-296 | As written, the patrol can alternate forever between z = 20.1 and z = 20.02, beyond the limit. |
| Frame.Patrol | Main.py:294-296 | Corrected patrol step: z advances by `dir·4·dt`, and at or past the limit the direction points back toward z = 0. |
| Frame.PatrolKeepsOk | Main.py:294-296 | With steps no longer than a bound, the corrected patrol keeps a unit direction, stays within one step of the limit, and heads back whenever past it. |
| Frame.PatrolAgreesInside | Main.py:294-296 | Inside the limit the corrected step equals the step as written. |
| Frame.WrapAngle | Main.py:298-300 | An angle in [0, 360) advanced by an increment below 360 stays in [0, 360). |
| Frame.WrapAngleTurns | Main.py:306-308 | The wrapped angle is the advanced angle, less 360 at most once. It stays below 360 exactly when the advanced angle is below 720. |
| Frame.InitialWorld | Main.py:233-247 | The loop starts with the given player and camera, score 0, C released, the generated balls, the monkey at z = 0 heading +1, and both spin angles at 0. That patrol state is sane for any positive step bound. |
| Frame.FrameCamera | Main.py:280-284 | The camera after the C handling is in the frame's mode: toggled exactly on a fresh press. |
| Frame.Advance | Main.py:272-308 | One frame apart from the patrol, which stays where it was. |
| Frame.Step | Main.py:250-308 | One frame. The score grows by the number of collected balls and exactly those are removed, so none within reach remains. The mode flips only on a fresh C press. In free mode the camera takes its free-flight step from the toggled camera and the player is untouched. In third-person mode the player takes its update step and the camera follows it, 2 above and 5 behind. Both angles advance by their rate times `dt`, wrapped once, so they stay in [0, 360) for increments below 360. The patrol takes the corrected step. |
| Frame.StepAsWritten | Main.py:250-308 | The same frame with the patrol exactly as written; inside the limit it agrees with the corrected step. |

## Left out

- Rendering, shaders, lighting, shadows, the skybox, leaves, text and the imgui widgets: these are foreign OpenGL/GLFW/imgui calls with no logic of the core.
- The orbiting light's angle (Main.py:346-353) belongs to the lighting set-up and is not part of the frame model.
- `Player.get_model_matrix` and `Camera.get_view_matrix`: glm matrix construction only.
- Camera getters and setters (camera.py:90-147): plain field access that the core does not call.
- Binary floating point: all arithmetic is exact on reals, so float32 vertex storage, rounding of intermediate results and infinities are not modelled.
- Terrain.HeightFor: a triangle with collinear corners gives no answer. In the source, `glm.normalize` gives NaNs there and Python's `max` keeps the earlier height, which has the same effect for the scan.
- Exception handlers: every `try/except` fallback (for example `ground_offset` on a failing height query) guards against faults that cannot occur on the model's inputs.
- ObjLoader.LoadObj: in the source, two failures raise out of `loadOBJ`: a line that raises something other than `IOError` (a missing coordinate, a non-numeric token), and a face index outside its table during resolution. The model returns `Malformed` for both. An `IOError` in the middle of reading is not distinguished from one at opening.
- ObjLoader.Classify: decimal coordinates are parsed by the `parseFloat` parameter. Face indices are parsed as an optional sign and ASCII digits (Python's `int` also accepts surrounding blanks, underscores and other Unicode digits). Whitespace is Python's Latin-1 set.
- Negative OBJ indices are resolved as Python list indices into the final tables, as the code does, not relative to the current position as the Wavefront OBJ format intends.
- Trigonometry (`sin`, `cos`, `atan2` in degrees) and `normalize` are the `MathLib` parameter, so slopes and headings are not computed numerically.
- The clock (`time()`, `glfw.get_time()`), the frame time and `random.uniform`'s underlying `random()` stream are inputs; one unit pair of draws feeds each placement attempt.
- Python's `round` is modelled exactly (half to even) on the real value, not on its binary approximation.
- The `float('-inf')` checks in `Player.update`, `_init_terrain_data` and `get_slope_angle` never fire, because the height query always answers a finite value; the model leaves them out.
- Placement ledger aliasing: the ledger holds the same vector objects whose y is later overwritten by the terrain snap. Spacing uses only x and z, so the model keeps the ledger's y at the placement offset.
- The `minus` and `equal` keys are read every frame but never used.
- The player's initial facing direction (0, 0, -1) disagrees with its heading 90°, which would face +x; the model keeps both values as written.
- The monkey and hummingbird proxies are registered once at their initial translations and do not follow the animation, as in the code.
- Frame.WrapAngle: the source subtracts 360 only once, so a single frame advancing more than 360° leaves the angle at or above 360; the contract covers increments below 360.
- Frame.Step uses the corrected patrol step (see Findings); `Frame.StepAsWritten` is the frame with the patrol as written (`Frame.PatrolAsWritten`).
- Score display, FPS and position counters: imgui text around the score, which the model keeps as a number.

## Findings

| source | as written | input that shows it | evidently intended | confidence | as-written member | corrected member |
|---|---|---|---|---|---|---|
| Main.py:294-296 | The patrol negates its direction on every frame whose step ends at or past \|z\| = 20, even when the direction already points back toward the origin. | Starting at z = 19.9 heading +z, with frame time 0.05 and then 0.02 repeatedly: z goes to 20.1 (turn back), 20.02 (still past, turns outward again), 20.1, 20.02, … forever. | At or past the limit the monkey turns toward z = 0, so it always returns inside the limit. | not executed | Frame.PatrolAsWritten, Frame.PatrolAsWrittenEscapes, Frame.EscapedRunStaysOut, Frame.StepAsWritten | Frame.Patrol, Frame.PatrolKeepsOk, Frame.Step |
