# 3D-Vis core in Dafny

This project models the geometric core of 3D-Vis, a small interactive 3D viewer
written in Go on top of raylib, and proves properties of that model. It covers:

- the coordinate, vertex and vector algebra of `geom/`: the in-place and copying
  operations, the dot and cross products, the tolerance equality, and the angle
  with its `NaN` case;
- the indexed triangle meshes `Mesh`, which checks its indices, and `Mesh2d`,
  which does not;
- the cube and tetrahedron factories;
- the orbiting camera in `vis/Camera.go`: its validation, its rotation and zoom
  updates, and its world-to-view-to-screen projection;
- the renderer's culling and drawing rules in `vis/Renderer.go`, with each
  raylib draw call recorded in a command list;
- the scene lists of `vis/Scene.go` and `vis/Application.go`;
- the GUI manager's element list, the slider's range logic, and the colour
  cycling and change notification of the renderer configuration panel.

Layout, one module per file:

| file | module | Go source |
|---|---|---|
| Wrappers.dfy | `Wrappers` | Go's `(value, error)` returns and `NaN` results |
| RealMath.dfy | `RealMath` | the parts of Go's `math` package used (`Abs`, `Min`, `Max`, `Mod`, `Round`, `Pi`) |
| Colors.dfy | `Colors` | raylib's `Color` and its named colours |
| Coords.dfy | `GeomCoords` | `geom/Coords2d.go`, `geom/Coords3d.go` |
| Vertex.dfy | `GeomVertex` | `geom/Vertex.go`, `geom/Vertex2d.go` |
| Vector.dfy | `GeomVector` | `geom/Vector.go`, `geom/Vector2d.go` |
| Mesh.dfy | `GeomMesh` | `geom/Mesh.go` |
| Mesh2d.dfy | `GeomMesh2d` | `geom/Mesh2d.go` |
| Primitives.dfy | `GeomPrimitives` | `geom/primitives.go` |
| Camera.dfy | `VisCamera` | `vis/Camera.go` |
| Scene.dfy | `VisScene` | `vis/Scene.go` |
| Renderer.dfy | `VisRenderer` | `vis/Renderer.go` |
| CubeCulling.dfy | `VisCubeCulling` | culling of `CreateCube`'s faces by `checkVisibility` |
| GuiManager.dfy | `GuiManager` | `vis/gui/manager.go` |
| Slider.dfy | `GuiSlider` | `vis/gui/slider.go` |
| RendererConfigPanel.dfy | `GuiRendererConfigPanel` | `vis/gui/renderer_config_panel.go` |
| Application.dfy | `VisApplication` | `vis/Application.go` |

Modelling conventions:

- Go value structs (`Coords2d`, `Coords3d`, `Vertex`, `Vector` and their 2D
  forms) are datatypes. Their pointer-receiver mutators live in small classes
  (`Coords3dRef`, `VertexRef`, `VectorRef`, ...) that stand for a `*T` location.
- Structs that the source updates in place (`Mesh`, `Camera`, `Renderer`,
  `Scene`, `Application`, `Manager`, `Slider`, `RendererConfigPanel`) are
  classes whose fields hold `seq`s and values.
- `float32` and `float64` are modelled as `real`.
- `math.Sqrt`, `math.Acos`, `math.Sin` and `math.Cos` are function parameters,
  bundled as `MathLib` where several are needed. A lemma that needs a property
  of one states it as a precondition, for instance "the square root is never
  negative".
- `math.Pi` is its float64 value. A `NaN` result is `None`.
- `math.Mod` is the remainder of the quotient truncated toward zero, as in Go.
- An error return becomes a `Result`, `Outcome` or `Option` value that carries
  the values the Go message prints.
- The `Renderer` issues draw calls by appending `DrawTriangle` and
  `DrawTriangleLines` commands to its `frame`. The screen size that `Render`
  asks raylib for is a parameter.

The culling rule, as the code has it: `checkVisibility` keeps a face when its
normal has a negative dot product with the vector from the camera to the
face's first corner. So, for a camera outside the cube on the +X axis, the two
faces on the cube's +X side are drawn and the other ten are culled
(`VisCubeCulling.CubeSeenFromPlusX`). This is the usual
convention that faces turned toward the viewer are drawn.

## Model

| member | source | states |
|---|---|---|
| GeomCoords.Coords2d.SquaredLength | geom/Coords2d.go:19-21 | the sum of squares under `Length`'s square root is never negative |
| GeomCoords.Coords2d.Subtracted | geom/Coords2d.go:28-32 | adding `other` back to the difference gives the original pair, axis by axis |
| GeomCoords.Coords3d.SquaredLength | geom/Coords3d.go:16-18 | the sum of squares under `Length`'s square root is never negative |
| GeomCoords.Coords3d.Subtracted | geom/Coords3d.go:32-36 | adding `other` back to the difference gives the original triple |
| GeomCoords.Coords3d.Added | geom/Coords3d.go:26-30 | subtracting `other` from the sum gives the original triple, axis by axis |
| GeomCoords.Distance2dSymmetric | geom/Coords2d.go:48-51 | the 2D distance is the same in both directions, for any square root |
| GeomCoords.Equals2dSymmetric | geom/Coords2d.go:15-17 | 2D `Equals` is symmetric |
| GeomCoords.Distance2dToItself | geom/Coords2d.go:48-51 | a point is at distance 0 from itself when the square root of 0 is 0 |
| GeomCoords.Equals2dReflexive | geom/geom2d_test.go:8-15 | a pair equals itself (and so a pair with the same fields) |
| GeomCoords.Length2dOfThreeFour | geom/geom2d_test.go:22-29 | the length of (3, 4) is exactly 5 under a true square root |
| GeomCoords.Equals2dTolerance | geom/geom2d_test.go:8-20 | (1, 2) does not equal (1, 2.000001): an offset of 1e-6 is above the 1e-9 tolerance |
| GeomCoords.Equals3dReflexiveSymmetric | geom/Coords3d.go:10-14 | 3D `Equals` is reflexive and symmetric |
| GeomCoords.Distance3dToItself | geom/Coords3d.go:53-56 | a triple is at distance 0 from itself when the square root of 0 is 0 |
| GeomCoords.Distance3dSymmetric | geom/Coords3d.go:53-56 | the 3D distance is the same in both directions |
| GeomCoords.Normalized3dDirection | geom/Coords3d.go:44-51 | normalising leaves a zero-length triple as it is; otherwise it scales by the positive factor 1 / length |
| GeomCoords.Normalized3dExamples | geom/Coords3d.go:44-51 | (0, 6, 8) normalises to (0, 0.6, 0.8), and (0, 0, 0) stays (0, 0, 0) |
| GeomCoords.Coords2dRef.Subtract | geom/Coords2d.go:23-26 | both fields decrease by `other`'s; the new value is the old value's `Subtracted(other)` |
| GeomCoords.Coords2dRef.Subtracted | geom/Coords2d.go:28-32 | returns the difference, computed on a copy |
| GeomCoords.Coords2dRef.Scale | geom/Coords2d.go:34-37 | both fields are multiplied by the scalar |
| GeomCoords.Coords2dRef.Normalize | geom/Coords2d.go:39-46 | the new value is the normalised old one; a zero-length pair is left unchanged |
| GeomCoords.Coords3dRef.Subtract | geom/Coords3d.go:20-24 | each axis decreases by `other`'s |
| GeomCoords.Coords3dRef.Add | geom/Coords3d.go:26-30 | each axis increases by `other`'s |
| GeomCoords.Coords3dRef.Subtracted | geom/Coords3d.go:32-36 | returns the difference, computed on a copy |
| GeomCoords.Coords3dRef.Scale | geom/Coords3d.go:38-42 | each axis is multiplied by the scalar |
| GeomCoords.Coords3dRef.Normalize | geom/Coords3d.go:44-51 | the new value is the normalised old one; a zero-length triple is left unchanged |
| GeomVertex.Vertex.Subtracted | geom/Vertex.go:16-20 | adding `other` back to the difference gives the original vertex |
| GeomVertex.Vertex.Added | geom/Vertex.go:26-30 | each coordinate of the sum is the sum of the coordinates |
| GeomVertex.NewVertex | geom/Vertex.go:8-10 | the accessors `X`, `Y`, `Z` give back the three arguments |
| GeomVertex.Vertex2d.Subtracted | geom/Vertex2d.go:16-20 | adding `other` back to the difference gives the original vertex, axis by axis |
| GeomVertex.NewVertex2d | geom/Vertex2d.go:8-10 | the accessors `X`, `Y` give back the two arguments |
| GeomVertex.AddSubtractInverse | geom/Vertex.go:12-30 | `Add` and `Subtract` of the same vertex undo each other, in either order |
| GeomVertex.DistanceSymmetric | geom/Vertex.go:32-34 | the distance between vertices is symmetric |
| GeomVertex.DistanceToItself | geom/Vertex.go:32-34 | a vertex is at distance 0 from itself when the square root of 0 is 0 |
| GeomVertex.Vertex2dDistanceToItself | geom/Vertex2d.go:22-24 | a 2D vertex is at distance 0 from itself when the square root of 0 is 0 |
| GeomVertex.VertexRef.Subtract | geom/Vertex.go:12-14 | the stored vertex becomes the old one minus `other` |
| GeomVertex.VertexRef.Add | geom/Vertex.go:22-24 | the stored vertex becomes the old one plus `other` |
| GeomVertex.VertexRef.Subtracted | geom/Vertex.go:16-20 | returns the difference, computed on a copy |
| GeomVertex.VertexRef.Added | geom/Vertex.go:26-30 | returns the sum, computed on a copy |
| GeomVertex.Vertex2dRef.Subtract | geom/Vertex2d.go:12-14 | the stored vertex becomes the old one minus `other` |
| GeomVertex.Vertex2dRef.Subtracted | geom/Vertex2d.go:16-20 | returns the difference, computed on a copy |
| GeomVertex.Vertex2dSubtractExample | geom/geom2d_test.go:31-41 | (3, 4) minus (1, 2), subtracted in place, is (2, 2) |
| GeomVector.Vector.Subtracted | geom/Vector.go:26-30 | adding `other` back to the difference gives the original vector |
| GeomVector.Vector.Added | geom/Vector.go:36-40 | each coordinate of the sum is the sum of the coordinates |
| GeomVector.Vector.Dot | geom/Vector.go:58-62 | a vector's dot product with itself is its squared length |
| GeomVector.Vector.Angle | geom/Vector.go:74-84 | `NaN` (`None`) exactly when one of the two lengths is zero; otherwise the arc cosine of the dot product divided by both lengths |
| GeomVector.NewVector | geom/Vector.go:10-12 | the accessors give back the three arguments |
| GeomVector.NewVectorFromVertex | geom/Vector.go:14-16 | the vector has the vertex's coordinates |
| GeomVector.NewVectorFromVertices | geom/Vector.go:18-20 | the position of `begin` plus the result is the position of `end` |
| GeomVector.FromVerticesExample | geom/geom_test.go:34-40 | the vector from (1, 1, 1) to (4, 5, 6) is (3, 4, 5) |
| GeomVector.DotSymmetricAndScales | geom/Vector.go:58-62 | the dot product is symmetric and scaling one factor by `k` scales the product by `k` |
| GeomVector.CrossOrthogonal | geom/Vector.go:64-72 | the cross product is orthogonal to both factors |
| GeomVector.CrossAntisymmetric | geom/Vector.go:64-72 | swapping the factors negates the cross product; a vector crossed with itself is zero |
| GeomVector.ProductExamples | geom/geom_test.go:89-133 | (1, 2, 3) x (4, 5, 6) = (-3, 6, -3) and (1, 2, 3) . (4, 5, 6) = 32 |
| GeomVector.ProductsWithZero | geom/geom_test.go:98-122 | the cross and dot products with the zero vector are zero |
| GeomVector.AngleWithZero | geom/geom_test.go:146 | the angle between any vector and the zero vector is `NaN`, in either order |
| GeomVector.AngleOfZeroLength | geom/Vector.go:74-80 | a zero-length factor on either side makes the angle `NaN` |
| GeomVector.ZeroLength | geom/geom_test.go:51 | the zero vector has length 0 |
| GeomVector.AngleExamples | geom/geom_test.go:144-145 | the angle of the x axis with the y axis is `acos(0)`, with itself `acos(1)` |
| GeomVector.NormalizedDotSign | geom/Vector.go:54-62 | normalising a vector keeps the sign of its dot product with every other vector (negative, zero) |
| GeomVector.VectorRef.constructor | geom/Vector.go:6-8 | the location holds the given value |
| GeomVector.VectorRef.Subtract | geom/Vector.go:22-24 | the stored vector becomes the difference |
| GeomVector.VectorRef.Add | geom/Vector.go:32-34 | the stored vector becomes the sum |
| GeomVector.VectorRef.Subtracted | geom/Vector.go:26-30 | returns the difference from a copy, leaving this location alone |
| GeomVector.VectorRef.Added | geom/Vector.go:36-40 | returns the sum from a copy, leaving this location alone |
| GeomVector.VectorRef.Scale | geom/Vector.go:50-52 | the stored vector becomes the scaled one |
| GeomVector.VectorRef.Normalize | geom/Vector.go:54-56 | the stored vector becomes the normalised one; a zero-length vector is unchanged |
| GeomVector.Vector2d.Subtracted | geom/Vector2d.go:22-24 | adding `other` back to the difference gives the original vector, axis by axis |
| GeomVector.Vector2d.Dot | geom/Vector2d.go:42-45 | a vector's dot product with itself is its squared length |
| GeomVector.Vector2d.Angle | geom/Vector2d.go:51-61 | `NaN` (`None`) exactly when one of the two lengths is zero; otherwise the arc cosine of the dot product divided by both lengths |
| GeomVector.NewVector2d | geom/Vector2d.go:10-12 | the accessors give back the two arguments |
| GeomVector.NewVector2dFromVertex | geom/Vector2d.go:14-16 | the vector has the vertex's coordinates |
| GeomVector.NewVector2dFromVertices | geom/Vector2d.go:18-20 | each coordinate is the end's minus the beginning's |
| GeomVector.Products2dSymmetry | geom/Vector2d.go:42-49 | the 2D cross product is antisymmetric and zero on a vector with itself; the dot product is symmetric |
| GeomVector.Vector2dRef.constructor | geom/Vector2d.go:6-8 | the location holds the given value |
| GeomVector.Vector2dRef.Subtract | geom/Vector2d.go:22-24 | the stored vector becomes the difference |
| GeomVector.Vector2dRef.Scale | geom/Vector2d.go:34-36 | the stored vector becomes the scaled one |
| GeomVector.Vector2dRef.Normalize | geom/Vector2d.go:38-40 | the stored vector becomes the normalised one; a zero-length vector is unchanged |
| GeomMesh.Triangle.WithNormal | geom/Mesh.go:11-13 | the indices are kept and the normal is the given one |
| GeomMesh.AppendVertexKeepsNormals | geom/Mesh.go:28-31 | appending a vertex keeps every face's indices valid and its cached normal the computed one |
| GeomMesh.ComputeNormalProperties | geom/Mesh.go:34-41 | the computed normal is orthogonal to both sides of the triangle; with a non-negative square root, its dot product with any vector is negative exactly when the raw cross product's is |
| GeomMesh.NormalizedOrthogonal | geom/Mesh.go:37-38 | normalising keeps a zero dot product at zero |
| GeomMesh.CheckFaceIndices | geom/Mesh.go:44-53 | passes exactly when all three indices are vertices; otherwise reports the first bad one of v1, v2, v3 with its value and the vertex count |
| GeomMesh.LookupVertex | geom/Mesh.go:73-78 | succeeds exactly on an index inside the list, returning that vertex; otherwise reports the index and the count |
| GeomMesh.LookupVertexInFace | geom/Mesh.go:80-89 | a face index outside the list, then a corner other than 0, 1, 2, are errors; otherwise it is the vertex lookup of the stored index |
| GeomMesh.LookupNormal | geom/Mesh.go:91-96 | succeeds exactly on a face index inside the list, returning its cached normal; otherwise reports the index and the count |
| GeomMesh.VertexInFaceOfValidMesh | geom/Mesh.go:80-89 | on a consistent mesh `VertexInFace` fails exactly for a bad face or corner index, and otherwise gives the named vertex |
| GeomMesh.Mesh.constructor | geom/Mesh.go:15-18 | the zero `Mesh{}` has no vertices and no faces |
| GeomMesh.Mesh.AddVertex | geom/Mesh.go:28-31 | appends the vertex, leaves the faces alone, returns the new index and keeps the mesh consistent |
| GeomMesh.Mesh.AddFace | geom/Mesh.go:43-63 | a bad index gives -1 and the first failed check's error and changes nothing; otherwise appends exactly one face on the given indices with the computed normal and returns its index; consistency and cached normals are kept |
| GeomMesh.Mesh.SetFaceNormal | geom/Mesh.go:65-71 | a face index outside the list is an error that changes nothing; otherwise only that face's normal changes |
| GeomMesh.TriangleMesh | geom/geom_test.go:193-215 | three added vertices get indices 0, 1, 2 and the face on them becomes face 0 |
| GeomMesh.MeshScenario | geom/geom_test.go:217-289 | the face's corners read back in order, the normal set on face 0 reads back, and face 999, corner 3 and vertices 3 and -1 are errors |
| GeomMesh.AddFaceOutOfBoundsScenario | geom/mesh_bounds_test.go:5-16 | with one vertex, the face (0, 1, 2) is rejected on its second index and no face is added |
| GeomMesh2d.Mesh2d.constructor | geom/Mesh2d.go:9-12 | the zero `Mesh2d{}` has no vertices and no faces |
| GeomMesh2d.Mesh2d.AddVertex | geom/Mesh2d.go:22-25 | appends the vertex, leaves the faces alone and returns the new vertex's index |
| GeomMesh2d.Mesh2d.AddFace | geom/Mesh2d.go:27-35 | appends a visible face on exactly the given indices, unchecked, and returns its index; the mesh stays consistent exactly when the indices are vertices |
| GeomMesh2d.Mesh2d.Vertex | geom/Mesh2d.go:37-39 | the result is one of the mesh's vertices |
| GeomMesh2d.Mesh2d.VertexInFace | geom/Mesh2d.go:41-44 | the vertex the face's k-th stored index names |
| GeomMesh2d.Mesh2dScenario | geom/geom2d_test.go:43-88 | three vertices and one face; the face's corners read back as (0, 0), (1, 0), (0, 1) in order |
| GeomMesh2d.UncheckedAddFaceScenario | geom/Mesh2d.go:27-35 | an empty mesh accepts the face (5, 6, 7) as face 0, leaving it inconsistent |
| GeomPrimitives.CubeShape | geom/primitives.go:8-16 | the cube has 8 corners, each coordinate `h` or `-h`, and 12 faces whose indices are corners |
| GeomPrimitives.CubeFacesOnSides | geom/primitives.go:18-40 | the three corners of every cube face share one coordinate equal to `h` or `-h`, so each face lies on a side of the cube |
| GeomPrimitives.CubeFaceDot | geom/primitives.go:9-40 | every cube face's raw normal has dot product `4 h^3` with the face's first corner |
| GeomPrimitives.CubeOutward | geom/primitives.go:5-43 | for a positive size, every face of the cube is wound so that its normal points away from the centre |
| GeomPrimitives.CubeFaceOutward | geom/primitives.go:5-43 | one cube face of positive half size is wound outwards |
| GeomPrimitives.TetrahedronFaceDot | geom/primitives.go:49-58 | every tetrahedron face's raw normal has dot product `h^3` with the face's first corner |
| GeomPrimitives.TetrahedronOutward | geom/primitives.go:46-61 | for a positive size, every face of the tetrahedron is wound outwards |
| GeomPrimitives.CreateCube | geom/primitives.go:5-43 | a fresh mesh holding exactly the eight corners of half size `size / 2` and the twelve faces in order; it is consistent and every face holds its computed normal |
| GeomPrimitives.AddCubeFaces | geom/primitives.go:18-40 | the twelve face additions append exactly the cube's index triples, in order, and keep the cached normals |
| GeomPrimitives.AddLastCubeFaces | geom/primitives.go:30-40 | the last six face additions complete the cube's index triples |
| GeomPrimitives.CreateTetrahedron | geom/primitives.go:46-61 | a fresh mesh holding exactly the four corners and four faces in order; it is consistent and every face holds its computed normal |
| VisScene.Scene.constructor | vis/Scene.go:10-14 | a new scene holds no meshes |
| VisScene.Scene.AddMesh | vis/Scene.go:16-18 | appends the mesh, nil included; the meshes already there keep their places |
| VisScene.SceneScenario | vis/Scene.go:10-18 | a mesh and then nil, added to a new scene, are held in that order |
| VisCamera.DefaultCameraConfig | vis/Camera.go:27-34 | radius 1000, screen at 500, both angles pi / 4 |
| VisCamera.CheckCameraConfig | vis/Camera.go:38-46 | passes exactly when the radius is positive and the screen distance lies in [0, radius]; otherwise it reports the first failed check with the values it prints |
| VisCamera.DefaultConfigAccepted | vis/Camera.go:57-60 | the default configuration passes every check |
| VisCamera.WrapPolar | vis/Camera.go:64-69 | the stored polar angle lies in [0, 2 pi) and differs from the sum by a whole number of turns |
| VisCamera.WrapPolarInRange | vis/Camera.go:65-69 | an angle already in [0, 2 pi) is left as it is |
| VisCamera.ClampAzimuth | vis/Camera.go:74-76 | the stored azimuth lies in [0, pi]: 0 below, pi above, the sum itself in between |
| VisCamera.ClampDistance | vis/Camera.go:81-90 | the stored screen distance is 0 below 0, the radius above it, the sum itself in between, so it stays in [0, radius] |
| VisCamera.Camera.constructor | vis/Camera.go:48-53 | the four fields hold the configuration's four values |
| VisCamera.Camera.RotatePolar | vis/Camera.go:63-70 | only the polar angle changes, to the wrapped sum; a valid camera stays valid |
| VisCamera.Camera.RotateAzimuth | vis/Camera.go:73-77 | only the azimuth changes, to the clamped sum; a valid camera stays valid |
| VisCamera.Camera.ScaleLinear | vis/Camera.go:80-91 | only the screen distance changes, to the clamped sum; a valid camera stays valid |
| VisCamera.Camera.FromWorldToView | vis/Camera.go:113-121 | the view depth is the radius less the point's extent along the camera's direction; the world origin goes to (0, 0, radius) |
| VisCamera.Camera.FromViewToScreen | vis/Camera.go:127-147 | near the eye plane the view x and y are kept; otherwise the offset from the screen centre times the depth is the screen distance times the view coordinate; y points down |
| VisCamera.NewCamera | vis/Camera.go:37-54 | nil and the first failed check's error for a bad configuration; otherwise a fresh valid camera holding exactly the configured values |
| VisCamera.NewCameraWithDefaults | vis/Camera.go:57-60 | never nil: a fresh valid camera on the default configuration |
| VisCamera.TransformOrigin | vis/Camera.go:150-155 | the world origin is drawn at the centre of the screen, for every camera state |
| VisCamera.CameraAtViewOrigin | vis/Camera.go:113-121 | when sine and cosine satisfy sin^2 + cos^2 = 1, the camera's own position is the origin of its view frame |
| VisCamera.RotationOfCameraPoint | vis/Camera.go:113-121 | the view rotation, applied to the camera's position written on sines and cosines, gives the origin |
| VisCamera.CameraPosition | vis/Renderer.go:151-166 | the camera position is `radius` times the direction the two angles give |
| RealMath.Abs | vis/Camera.go:132 | the magnitude: non-negative and `x` or `-x` |
| RealMath.Min | vis/Camera.go:76 | the smaller argument: at most both, and one of them |
| RealMath.Max | vis/Camera.go:76 | the larger argument: at least both, and one of them |
| RealMath.Trunc | vis/Camera.go:66 | the integer part rounded toward zero, within one of `q` on the side of zero |
| RealMath.Mod | vis/Camera.go:66 | the truncated remainder: it has the sign of `x`, its magnitude is below `y`, and `x` less it is a whole multiple of `y` |
| RealMath.Round | vis/gui/renderer_config_panel.go:246 | the integer within one half of `x` with the sign of `x`, halves rounded away from zero |
| VisRenderer.DefaultRendererConfig | vis/Renderer.go:24-35 | light grey background, grey faces at alpha 220, black edges, no random colours, faces, edges and culling on |
| VisRenderer.VisibilityByRawNormal | vis/Renderer.go:136-149 | normalising does not change the verdict: a face is visible exactly when its raw cross product has a negative dot product with the vector from the camera to its first corner |
| VisRenderer.DegenerateFaceInvisible | vis/Renderer.go:136-149 | a face whose first two corners coincide or whose sides are parallel is never visible |
| VisRenderer.DegenerateFaceHasZeroNormal | vis/Renderer.go:139-141 | such a face's raw cross product is the zero vector |
| VisRenderer.NormalizedZero | geom/Vector.go:54-56 | normalising the zero vector leaves it as it is |
| VisRenderer.FaceColor | vis/Renderer.go:120-134 | the colour always carries the configured alpha; its red, green and blue are the configured face colour's, or the random colour's in random-colour mode |
| VisRenderer.FaceCommandsProperties | vis/Renderer.go:102-118 | a culled face draws nothing; any other face draws one call per switch that is on, the filled triangle first and the outline last, and every fill has the configured alpha |
| VisRenderer.ValidMeshDrawsEveryFace | vis/Renderer.go:79-94 | with culling off, a mesh whose face indices are all in range skips no face: `n` faces draw `n` times the calls of one |
| VisRenderer.ValidFaceDraws | vis/Renderer.go:83-92 | with culling off, a face of such a mesh draws one call per switch that is on |
| VisRenderer.ValidFaceStepIsFaceCommands | vis/Renderer.go:83-92 | for any configuration, a face of a mesh whose indices are all in range is never skipped: its step is the cull test and drawing of the three corners its indices name |
| VisRenderer.ValidMeshSkipsNoFace | vis/Renderer.go:79-94 | for any configuration, the draw calls of a mesh whose indices are all in range are those of every face's corners in face order, read straight from the index triples |
| VisRenderer.RenderIgnoresCachedNormals | vis/Renderer.go:79-94 | two face lists with the same index triples draw the same calls, whatever normals they cache |
| VisRenderer.FaceStepIgnoresCachedNormal | vis/Renderer.go:83-92 | one face's draw calls depend on its index triple only |
| VisRenderer.Renderer.constructor | vis/Renderer.go:46-51 | the given camera and configuration, no screen size yet, nothing drawn |
| VisRenderer.Renderer.Render | vis/Renderer.go:59-66 | stores the screen size and issues the draw calls of every mesh of the scene in order; camera and configuration are unchanged |
| VisRenderer.Renderer.SetCamera | vis/Renderer.go:69-71 | only the camera changes |
| VisRenderer.Renderer.RenderMesh | vis/Renderer.go:79-94 | issues the draw calls of every face in order, from one camera position, skipping faces whose corners cannot be read |
| VisRenderer.Renderer.RenderMeshFace | vis/Renderer.go:83-92 | one loop turn: nothing for a face with an unreadable corner, otherwise that face's draw calls |
| VisRenderer.Renderer.RenderFace | vis/Renderer.go:102-118 | appends exactly the face's draw calls: none when culled, else the fill and then the outline as configured |
| VisRenderer.Renderer.SetConfig | vis/Renderer.go:178-180 | only the configuration changes |
| VisRenderer.NewRendererWithDefaults | vis/Renderer.go:54-56 | a fresh renderer on the given camera and the default configuration |
| VisRenderer.SetGetScenario | vis/Renderer.go:69-76 | a camera and a configuration that were set are read back |
| VisCubeCulling.CubeFaceNormal | geom/primitives.go:17-40 | every cube face's raw normal is `4 h^2` times the outward axis of the side it lies on |
| VisCubeCulling.CubeSeenFromPlusX | vis/Renderer.go:136-149 | with the camera at (d, 0, 0) beyond the cube's +X side, `checkVisibility` keeps a cube face exactly when it is one of the two faces on the +X side |
| VisCubeCulling.SideVerdict | vis/Renderer.go:144-148 | a point on a face's side, seen from (d, 0, 0), has a negative dot product with that side's normal exactly when the side is +X |
| VisCubeCulling.CubeFaceCornerOnSide | geom/primitives.go:17-40 | the first corner of every cube face lies on that face's side |
| GuiManager.RemoveFirst | vis/gui/manager.go:25-32 | one element shorter when `x` occurs, unchanged in length otherwise |
| GuiManager.RemoveAbsent | vis/gui/manager.go:25-32 | removing an element that does not occur leaves the list as it is |
| GuiManager.RemoveFirstAt | vis/gui/manager.go:26-29 | when `i` is the first position holding `x`, exactly position `i` goes and the rest keep their order |
| GuiManager.RemoveFirstMultiset | vis/gui/manager.go:25-32 | removal takes exactly one copy of `x` out of the multiset of elements |
| GuiManager.Manager.constructor | vis/gui/manager.go:10-15 | no elements, enabled |
| GuiManager.Manager.AddElement | vis/gui/manager.go:18-22 | appends a non-nil element; nil changes nothing |
| GuiManager.Manager.RemoveElement | vis/gui/manager.go:25-32 | the list loses the first occurrence of the element, if any; the flag is unchanged |
| GuiManager.Manager.Clear | vis/gui/manager.go:35-37 | the list becomes empty; the flag is unchanged |
| GuiManager.Manager.Update | vis/gui/manager.go:40-48 | visits every element once in list order when enabled, none when disabled |
| GuiManager.Manager.Draw | vis/gui/manager.go:51-59 | visits every element once in list order when enabled, none when disabled |
| GuiManager.Manager.SetEnabled | vis/gui/manager.go:62-64 | sets the flag and keeps the elements |
| GuiManager.Manager.GetElements | vis/gui/manager.go:72-76 | a fresh array holding the elements in order |
| GuiManager.ManagerScenario | vis/gui/manager.go:18-32 | nil is not added, and removing an element added twice drops only its first copy |
| GuiManager.EnabledScenario | vis/gui/manager.go:40-69 | the flag that was set is read back, and a disabled manager updates nothing |
| GuiSlider.Clamp | vis/gui/slider.go:200-202 | never above `max`; on a non-empty range inside it, the value itself when already inside, `min` below it, `max` above it |
| GuiSlider.ClampFloat | vis/gui/slider.go:204-212 | `min` below the range, `max` above it, the value otherwise; inside a non-empty range |
| GuiSlider.ClampsAgree | vis/gui/slider.go:200-212 | the two clamps agree on every non-empty range and differ on an empty one |
| GuiSlider.Slider.constructor | vis/gui/slider.go:46-91 | defaults for a zero width, a zero font size, a negative precision and transparent colours; an empty range becomes [Min, Min + 1]; the value is clamped into the range; the slider is valid |
| GuiSlider.Slider.SetPosition | vis/gui/slider.go:158-161 | only the corner moves; size, range, value, label, font size, precision and colours stay |
| GuiSlider.Slider.SetValue | vis/gui/slider.go:169-171 | the value becomes the clamped argument, the argument itself when in range; bounds, range, label, font size, precision and colours stay; the slider stays valid |
| GuiSlider.Slider.TrackRect | vis/gui/slider.go:174-177 | the track is as wide as the slider, `sliderTrackHeight` high, and ends 6 above the slider's bottom edge |
| GuiSlider.Slider.UpdateValueFromMouse | vis/gui/slider.go:179-183 | the value becomes the point of the range the mouse's clamped fraction of the track picks; nothing else changes and the slider stays valid |
| GuiSlider.MouseValueInRange | vis/gui/slider.go:181-182 | a fraction in [0, 1] of a non-empty range stays in the range |
| GuiSlider.MouseValueBounds | vis/gui/slider.go:179-183 | the mouse never moves the value out of the range; left of the track it is `min`, right of it `max` |
| GuiSlider.QuotientAtLeastOne | vis/gui/slider.go:181 | past the track's end the fraction is at least 1 |
| VisApplication.DefaultApplicationConfig | vis/Application.go:25-36 | a 1080 by 720 window titled "3D Visualization App" at 60 frames per second, default camera and renderer, no test scene |
| VisApplication.CheckApplicationConfig | vis/Application.go:49-62 | passes exactly when the window size and frame rate are positive and the camera configuration passes; otherwise the first failed check's error, the camera's own error wrapped |
| VisApplication.DefaultApplicationConfigAccepted | vis/Application.go:87-89 | the default configuration passes every check |
| VisApplication.RemoveAt | vis/Application.go:104 | one shorter, the elements before `i` in place, the later ones moved down by one, one copy of `s[i]` fewer |
| VisApplication.Application.constructor | vis/Application.go:64-72 | the configuration and renderer given, no scenes, a fresh enabled empty GUI |
| VisApplication.Application.AddScene | vis/Application.go:92-96 | appends a non-nil scene; nil changes nothing |
| VisApplication.Application.RemoveScene | vis/Application.go:99-105 | an index outside the list is an error and changes nothing; otherwise exactly that scene goes |
| VisApplication.Application.GetScenes | vis/Application.go:108-112 | a fresh array holding the scenes in order |
| VisApplication.NewApplication | vis/Application.go:48-84 | nil and the first failed check's error for a bad configuration; otherwise a fresh application with a valid camera on the configured values, the configured renderer settings, an empty GUI, and the test scene only when asked for |
| VisApplication.NewApplicationWithDefaults | vis/Application.go:87-89 | never nil: an application on the default configuration with no scene |
| VisApplication.SceneListScenario | vis/Application.go:92-105 | nil is not added, removing position 0 shifts the rest down, and a bad index is an error |
| GuiRendererConfigPanel.RendererConfigEqual | vis/gui/renderer_config_panel.go:273-282 | the field-by-field comparison holds exactly when the two configurations are equal |
| GuiRendererConfigPanel.RendererConfigEqualIsEquivalence | vis/gui/renderer_config_panel.go:273-282 | the comparison is reflexive, symmetric and transitive, so an equivalence |
| GuiRendererConfigPanel.FirstIndexOf | vis/gui/renderer_config_panel.go:288-292 | the first position holding the colour, or the palette's length exactly when it does not occur |
| GuiRendererConfigPanel.PaletteSuccessorCases | vis/gui/renderer_config_panel.go:284-294 | an empty palette gives `current` back; a colour not in the palette gives the first colour; the colour first found at `i` gives the one at `(i + 1) mod n`; on a non-empty palette the result is a palette colour |
| GuiRendererConfigPanel.RendererPaletteDistinct | vis/gui/renderer_config_panel.go:10-23 | the palette holds twelve different colours |
| GuiRendererConfigPanel.FirstIndexOfDistinct | vis/gui/renderer_config_panel.go:288-292 | in a palette of different colours, the colour at `i` is found at `i` |
| GuiRendererConfigPanel.SuccessorInDistinct | vis/gui/renderer_config_panel.go:288-292 | in a palette of different colours, the colour after the one at `p` is the next one, wrapping round |
| GuiRendererConfigPanel.CyclePosition | vis/gui/renderer_config_panel.go:290 | stepping round a cycle of `n` positions stays in the cycle |
| GuiRendererConfigPanel.CyclePositionIsMod | vis/gui/renderer_config_panel.go:290 | `k` steps from `i` land on `(i + k) mod n` |
| GuiRendererConfigPanel.PaletteSteps | vis/gui/renderer_config_panel.go:284-294 | in a palette of different colours, `k` presses move `k` positions round the palette |
| GuiRendererConfigPanel.PaletteCycle | vis/gui/renderer_config_panel.go:284-294 | `k` presses from the colour at `i` reach the colour at `(i + k) mod n` |
| GuiRendererConfigPanel.PaletteFullCircle | vis/gui/renderer_config_panel.go:284-294 | one press per palette colour comes back to the starting colour |
| GuiRendererConfigPanel.NextPaletteColor | vis/gui/renderer_config_panel.go:284-294 | the linear search returns the palette successor of `current` |
| GuiRendererConfigPanel.UpdatedStateProperties | vis/gui/renderer_config_panel.go:225-256 | a frame with no click, unchanged toggles and the slider at the current alpha changes nothing; a click always moves that colour to a palette colour; the alpha is within one half of the slider's value |
| GuiRendererConfigPanel.RendererConfigPanel.constructor | vis/gui/renderer_config_panel.go:65-222 | starts from the initial configuration, with a valid alpha slider over [0, 255] showing the initial alpha, and nothing notified |
| GuiRendererConfigPanel.RendererConfigPanel.Update | vis/gui/renderer_config_panel.go:225-256 | the new configuration is the clicked colours advanced, the toggles copied and the rounded slider value as alpha; the callback runs with it, once, exactly when there is one and the configuration changed |
| GuiRendererConfigPanel.RendererConfigPanel.Commit | vis/gui/renderer_config_panel.go:253-255 | stores the new configuration and notifies it exactly when there is a callback and it differs from the previous one |

## Left out

- raylib I/O. `Application.Run`, `Update`, `Render` and `Close`, the window that `NewApplication` opens and closes, and the screen-size query in `Renderer.Render` are not modelled. The screen size is a parameter of `Render`, and the draw calls are the `frame` command list.
- Floating point. `float32` and `float64` are `real`, so IEEE rounding, overflow, infinities and signed zeros are absent. That includes the exact-equality checks on `Length` in the geometry tests, and a `math.Mod` result that rounds to exactly 2π.
- `math.Sqrt`, `math.Acos`, `math.Sin` and `math.Cos` are abstract parameters. What depends on their values (the length of (1, 2, 3), the angle π/2) is stated up to those functions.
- VisRenderer.FaceColor: the random-colour red, green and blue are a parameter `randomColor`. The `uint8` conversion of an out-of-range float is implementation-defined in Go, so that channel arithmetic is left out. The alpha rule and the fixed-colour path are modelled.
- `vis/test_scene.go` is not part of this model. `NewApplication` takes the scene it builds as the parameter `testScene`.
- `Application.updateFn` and `SetUpdateFunction`, and `GetRenderer` and `GetGUI` beyond reading the field, are left out: they are callback plumbing.
- VisRenderer.Renderer.Render: it requires that the scene holds no nil mesh and that the renderer holds a camera (`RenderMesh`, `RenderMeshFace` and `RenderFace` require the camera too), because the Go code would dereference either one: `NewRenderer` and `SetCamera` accept a nil camera, and a render then fails at `r.camera.GetRadius()` (vis/Renderer.go:152), which `RenderMesh` reaches through `cameraPosition` at vis/Renderer.go:81; the model does not capture that panic. `Render` goes through the `Scene` interface's `GetMeshes`, which the concrete `Scene` struct does not define; the model reads the struct's `meshes` field instead. The struct's other missing interface methods, `RemoveMesh`, `Clear` and `MeshCount`, are not invented.
- VisRenderer.Renderer.RenderMesh: it requires that the renderer holds a camera, for the reason given under `Render`.
- VisRenderer.Renderer.RenderMeshFace: it requires that the renderer holds a camera, for the reason given under `Render`.
- VisRenderer.Renderer.RenderFace: it requires that the renderer holds a camera, for the reason given under `Render`.
- `Mesh2d`'s `Vertex`, `VertexInFace` and `IsVisible` index slices without checks, so Go would panic on a bad index. The model states the index ranges as preconditions.
- Slider: `Update` (mouse polling and dragging), `Draw`, `pointOnKnob`, `formatValue` and `knobRadius` are mouse, text and drawing work. The mouse's x position is a parameter of `UpdateValueFromMouse`.
- GuiRendererConfigPanel.RendererConfigPanel.Update: the widgets are not modelled. The panel's layout, labels, colour previews, `Panel` and `Draw` are left out, and the button clicks and toggle values of one frame are the `PanelInput` parameter. The `onChange` callback becomes a flag plus the `notified` log of the configurations it is called with. `uint8(math.Round(x))` is modelled only on [0, 255], which the alpha slider's range guarantees.
- GuiManager.Manager.Update: what each element's own `Update` and `Draw` do is not modelled. The manager's loops return the elements they visit.
- VisCubeCulling.CubeSeenFromPlusX: the camera position is given as the vector (d, 0, 0), not derived from a camera's angles through `cameraPosition` and `sin`/`cos`.
- The other GUI widgets and panels (buttons, toggles, labels, panels, colour previews, selectors) are layout and input widgets; the demo programs and `main.go` are wiring only.
