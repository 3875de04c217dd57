/**
 * `vis/Renderer.go`: draws every face of every mesh of a scene through the
 * camera. The raylib draw calls are recorded, in the order they are issued, in
 * the renderer's `frame`; the screen size `Render` asks raylib for is a
 * parameter. `lib` supplies the square root, sine and cosine, and
 * `randomColor` the colour the random-colour mode computes from the three
 * screen corners.
 */
module VisRenderer {
  import opened Wrappers
  import opened RealMath
  import opened GeomVertex
  import opened GeomVector
  import opened GeomMesh
  import opened VisCamera
  import opened VisScene
  import opened Colors

  /** `RendererConfig`: the colours and switches of the renderer. */
  datatype RendererConfig = RendererConfig(
    BackgroundColor: Color,
    UseRandomFaceColor: bool,
    FaceColor: Color,
    EdgeColor: Color,
    AlphaValue: uint8,
    DrawFaces: bool,
    DrawEdges: bool,
    UseBackfaceCulling: bool)

  /** `DefaultRendererConfig`: grey faces at alpha 220 with black edges on light grey, culling on. */
  function DefaultRendererConfig(): (c: RendererConfig)
    ensures c.BackgroundColor == LIGHT_GRAY && c.FaceColor == GRAY && c.EdgeColor == BLACK && c.AlphaValue == 220
    ensures !c.UseRandomFaceColor && c.DrawFaces && c.DrawEdges && c.UseBackfaceCulling
  {
    RendererConfig(LIGHT_GRAY, false, GRAY, BLACK, 220, true, true, true)
  }

  /** A raylib draw call: a filled triangle or a triangle outline, on screen points. */
  datatype DrawCommand =
    | DrawTriangle(a: Vertex2d, b: Vertex2d, c: Vertex2d, color: Color)
    | DrawTriangleLines(a: Vertex2d, b: Vertex2d, c: Vertex2d, color: Color)

  /** Everything beside the mesh that decides what a face draws. */
  datatype View = View(
    config: RendererConfig,
    camera: Camera,
    screenWidth: int,
    screenHeight: int,
    lib: MathLib,
    randomColor: (Vertex2d, Vertex2d, Vertex2d) -> Color)

  /**
   * `checkVisibility`: the face is visible when its normalised normal points
   * against the vector from the camera to its first corner.
   */
  function CheckVisibility(v1: Vertex, v2: Vertex, v3: Vertex, cameraPosition: Vector, sqrt: real -> real): bool {
    var edge1 := NewVectorFromVertices(v1, v2);
    var edge2 := NewVectorFromVertices(v1, v3);
    var normal := edge1.Cross(edge2).Normalized(sqrt);
    var cameraToFace := NewVectorFromVertex(v1).Subtracted(cameraPosition);
    normal.Dot(cameraToFace) < 0.0
  }

  /**
   * Normalising does not change the verdict: a face is visible exactly when its
   * raw normal has a negative dot product with the vector from the camera to it.
   */
  lemma VisibilityByRawNormal(v1: Vertex, v2: Vertex, v3: Vertex, cameraPosition: Vector, sqrt: real -> real)
    requires forall x :: 0.0 <= x ==> 0.0 <= sqrt(x)
    ensures CheckVisibility(v1, v2, v3, cameraPosition, sqrt) <==>
      RawNormal(v1, v2, v3).Dot(NewVectorFromVertex(v1).Subtracted(cameraPosition)) < 0.0
  {
    ComputeNormalProperties(v1, v2, v3, sqrt, NewVectorFromVertex(v1).Subtracted(cameraPosition));
  }

  /**
   * A degenerate face, whose first two corners coincide or whose second side is
   * a multiple of its first, is never visible, whatever the square root.
   */
  lemma DegenerateFaceInvisible(v1: Vertex, v2: Vertex, v3: Vertex, cameraPosition: Vector, sqrt: real -> real, k: real)
    requires v2 == v1 || NewVectorFromVertices(v1, v3) == NewVectorFromVertices(v1, v2).Scaled(k)
    ensures !CheckVisibility(v1, v2, v3, cameraPosition, sqrt)
  {
    DegenerateFaceHasZeroNormal(v1, v2, v3, k);
    var normal := NewVectorFromVertices(v1, v2).Cross(NewVectorFromVertices(v1, v3));
    assert normal == NewVector(0.0, 0.0, 0.0);
    NormalizedZero(normal, sqrt);
    var cameraToFace := NewVectorFromVertex(v1).Subtracted(cameraPosition);
    assert normal.Normalized(sqrt).Dot(cameraToFace) == 0.0;
  }

  /** Normalising the zero vector leaves it as it is. */
  lemma NormalizedZero(v: Vector, sqrt: real -> real)
    requires v == NewVector(0.0, 0.0, 0.0)
    ensures v.Normalized(sqrt) == v
  {
    var l := v.Length(sqrt);
    if l != 0.0 {
      assert v.Normalized(sqrt) == v.Scaled(1.0 / l);
    }
  }

  /** The raw normal of a degenerate face is the zero vector. */
  lemma DegenerateFaceHasZeroNormal(v1: Vertex, v2: Vertex, v3: Vertex, k: real)
    requires v2 == v1 || NewVectorFromVertices(v1, v3) == NewVectorFromVertices(v1, v2).Scaled(k)
    ensures RawNormal(v1, v2, v3) == NewVector(0.0, 0.0, 0.0)
  {
    var s := NewVectorFromVertices(v1, v2);
    if v2 == v1 {
      assert s == NewVector(0.0, 0.0, 0.0);
    } else {
      assert s.Y() * (s.Z() * k) - s.Z() * (s.Y() * k) == 0.0;
      assert s.Z() * (s.X() * k) - s.X() * (s.Z() * k) == 0.0;
      assert s.X() * (s.Y() * k) - s.Y() * (s.X() * k) == 0.0;
    }
  }

  /**
   * `getFaceColor`: the configured face colour, or the random one, always with
   * the configured alpha.
   */
  function FaceColor(config: RendererConfig, randomColor: Color): (c: Color)
    ensures c.A == config.AlphaValue
    ensures !config.UseRandomFaceColor ==>
      c.R == config.FaceColor.R && c.G == config.FaceColor.G && c.B == config.FaceColor.B
    ensures config.UseRandomFaceColor ==>
      c.R == randomColor.R && c.G == randomColor.G && c.B == randomColor.B
  {
    var faceColor := config.FaceColor.(A := config.AlphaValue);
    if config.UseRandomFaceColor then Color(randomColor.R, randomColor.G, randomColor.B, config.AlphaValue)
    else faceColor
  }

  /** `convertTo2D`: the vertex's screen position. */
  function ConvertTo2D(view: View, v: Vertex): Vertex2d
    reads view.camera
  {
    view.camera.Transform(v, view.screenWidth, view.screenHeight, view.lib.sin, view.lib.cos)
  }

  /** `cameraPosition` for the view's camera. */
  function ViewCameraPosition(view: View): Vector
    reads view.camera
  {
    CameraPosition(view.camera, view.lib.sin, view.lib.cos)
  }

  /** The face is dropped before anything is drawn: culling is on and the face is not visible. */
  predicate Culled(config: RendererConfig, v1: Vertex, v2: Vertex, v3: Vertex, cameraPosition: Vector, sqrt: real -> real) {
    config.UseBackfaceCulling && !CheckVisibility(v1, v2, v3, cameraPosition, sqrt)
  }

  /** How many draw calls a face that is not culled issues. */
  function DrawCount(config: RendererConfig): nat {
    (if config.DrawFaces then 1 else 0) + (if config.DrawEdges then 1 else 0)
  }

  /**
   * The draw calls of `renderFace`: nothing for a culled face; otherwise the
   * filled triangle if faces are drawn, then the outline if edges are drawn
   * (`FaceCommandsProperties` states what they are).
   */
  function FaceCommands(view: View, v1: Vertex, v2: Vertex, v3: Vertex, cameraPosition: Vector): seq<DrawCommand>
    reads view.camera
  {
    if Culled(view.config, v1, v2, v3, cameraPosition, view.lib.sqrt) then []
    else
      var a, b, c := ConvertTo2D(view, v1), ConvertTo2D(view, v2), ConvertTo2D(view, v3);
      (if view.config.DrawFaces then [DrawTriangle(a, b, c, FaceColor(view.config, view.randomColor(a, b, c)))] else []) +
      (if view.config.DrawEdges then [DrawTriangleLines(a, b, c, view.config.EdgeColor)] else [])
  }

  /**
   * A culled face issues nothing; any other face issues one call per switch
   * that is on, the fill first and the outline last, and every fill carries the
   * configured alpha.
   */
  lemma FaceCommandsProperties(view: View, v1: Vertex, v2: Vertex, v3: Vertex, cameraPosition: Vector)
    ensures var r := FaceCommands(view, v1, v2, v3, cameraPosition);
      (Culled(view.config, v1, v2, v3, cameraPosition, view.lib.sqrt) ==> r == []) &&
      (!Culled(view.config, v1, v2, v3, cameraPosition, view.lib.sqrt) ==> |r| == DrawCount(view.config)) &&
      (forall i :: 0 <= i < |r| && r[i].DrawTriangle? ==> r[i].color.A == view.config.AlphaValue)
    ensures var r := FaceCommands(view, v1, v2, v3, cameraPosition);
      var a, b, c := ConvertTo2D(view, v1), ConvertTo2D(view, v2), ConvertTo2D(view, v3);
      (view.config.DrawFaces && 0 < |r| ==> r[0] == DrawTriangle(a, b, c, FaceColor(view.config, view.randomColor(a, b, c)))) &&
      (view.config.DrawEdges && 0 < |r| ==> r[|r| - 1] == DrawTriangleLines(a, b, c, view.config.EdgeColor))
  {
  }

  /** The draw calls for face `f` of a mesh: none when one of its corners cannot be read. */
  function FaceStep(view: View, vertices: seq<Vertex>, faces: seq<Triangle>, f: int): seq<DrawCommand>
    reads view.camera
  {
    var r1, r2, r3 := LookupVertexInFace(vertices, faces, f, 0), LookupVertexInFace(vertices, faces, f, 1),
      LookupVertexInFace(vertices, faces, f, 2);
    if r1.Err? || r2.Err? || r3.Err? then []
    else FaceCommands(view, r1.value, r2.value, r3.value, ViewCameraPosition(view))
  }

  /** The draw calls of `RenderMesh` for the faces `0 .. n - 1`, in order. */
  function MeshCommands(view: View, vertices: seq<Vertex>, faces: seq<Triangle>, n: nat): seq<DrawCommand>
    requires n <= |faces|
    reads view.camera
  {
    if n == 0 then []
    else MeshCommands(view, vertices, faces, n - 1) + FaceStep(view, vertices, faces, n - 1)
  }

  /** The vertex and face lists of each mesh, in order. */
  function MeshContents(meshes: seq<Mesh?>): (r: seq<(seq<Vertex>, seq<Triangle>)>)
    requires forall i :: 0 <= i < |meshes| ==> meshes[i] != null
    reads set m | m in meshes
    ensures |r| == |meshes|
    ensures forall i :: 0 <= i < |meshes| ==> r[i] == (meshes[i].myVertices, meshes[i].myFaces)
  {
    if meshes == [] then []
    else
      var last := meshes[|meshes| - 1];
      MeshContents(meshes[..|meshes| - 1]) + [(last.myVertices, last.myFaces)]
  }

  /** The draw calls of `Render` for the first `n` meshes of a scene, given by their contents, in order. */
  function SceneCommands(view: View, contents: seq<(seq<Vertex>, seq<Triangle>)>, n: nat): seq<DrawCommand>
    requires n <= |contents|
    reads view.camera
  {
    if n == 0 then []
    else
      SceneCommands(view, contents, n - 1) + MeshCommands(view, contents[n - 1].0, contents[n - 1].1, |contents[n - 1].1|)
  }

  /**
   * In a mesh whose face indices are all in range no face is skipped: with
   * culling off, the first `n` faces issue `n` times the draw calls of one face.
   */
  lemma {:induction false} ValidMeshDrawsEveryFace(view: View, vertices: seq<Vertex>, faces: seq<Triangle>, n: nat)
    requires n <= |faces| && FacesValid(vertices, faces) && !view.config.UseBackfaceCulling
    ensures |MeshCommands(view, vertices, faces, n)| == n * DrawCount(view.config)
  {
    if n > 0 {
      var d := DrawCount(view.config);
      ValidMeshDrawsEveryFace(view, vertices, faces, n - 1);
      ValidFaceDraws(view, vertices, faces, n - 1);
      assert |MeshCommands(view, vertices, faces, n)| ==
        |MeshCommands(view, vertices, faces, n - 1)| + |FaceStep(view, vertices, faces, n - 1)|;
      assert (n - 1) * d + d == n * d;
    }
  }

  /** With culling off, a face of a mesh with every index in range issues one call per switch that is on. */
  lemma ValidFaceDraws(view: View, vertices: seq<Vertex>, faces: seq<Triangle>, f: int)
    requires 0 <= f < |faces| && FacesValid(vertices, faces) && !view.config.UseBackfaceCulling
    ensures |FaceStep(view, vertices, faces, f)| == DrawCount(view.config)
  {
    ValidFaceStepIsFaceCommands(view, vertices, faces, f);
    var t := faces[f].myVertexIndices;
    FaceCommandsProperties(view, vertices[t[0]], vertices[t[1]], vertices[t[2]], ViewCameraPosition(view));
  }

  /** The draw calls of face `f` of a mesh with every index in range, read straight from its index triple. */
  function ValidFaceCommands(view: View, vertices: seq<Vertex>, faces: seq<Triangle>, f: int): seq<DrawCommand>
    requires 0 <= f < |faces| && FacesValid(vertices, faces)
    reads view.camera
  {
    var t := faces[f].myVertexIndices;
    FaceCommands(view, vertices[t[0]], vertices[t[1]], vertices[t[2]], ViewCameraPosition(view))
  }

  /**
   * Whatever the configuration, a face of a mesh with every index in range is
   * never skipped: its step is the culling test and drawing of the three
   * corners its index triple names.
   */
  lemma ValidFaceStepIsFaceCommands(view: View, vertices: seq<Vertex>, faces: seq<Triangle>, f: int)
    requires 0 <= f < |faces| && FacesValid(vertices, faces)
    ensures var t := faces[f].myVertexIndices;
      FaceStep(view, vertices, faces, f) ==
      FaceCommands(view, vertices[t[0]], vertices[t[1]], vertices[t[2]], ViewCameraPosition(view))
    ensures FaceStep(view, vertices, faces, f) == ValidFaceCommands(view, vertices, faces, f)
  {
    VertexInFaceOfValidMesh(vertices, faces, f, 0);
    VertexInFaceOfValidMesh(vertices, faces, f, 1);
    VertexInFaceOfValidMesh(vertices, faces, f, 2);
  }

  /** The draw calls of faces `0 .. n - 1` of a mesh with every index in range, in face order. */
  function ValidMeshFaceCommands(view: View, vertices: seq<Vertex>, faces: seq<Triangle>, n: nat): seq<DrawCommand>
    requires n <= |faces| && FacesValid(vertices, faces)
    reads view.camera
  {
    if n == 0 then []
    else ValidMeshFaceCommands(view, vertices, faces, n - 1) + ValidFaceCommands(view, vertices, faces, n - 1)
  }

  /**
   * `RenderMesh` skips no face of a mesh with every index in range, culling on
   * or off: its draw calls are those of every face's corners, in face order.
   */
  lemma {:induction false} ValidMeshSkipsNoFace(view: View, vertices: seq<Vertex>, faces: seq<Triangle>, n: nat)
    requires n <= |faces| && FacesValid(vertices, faces)
    ensures MeshCommands(view, vertices, faces, n) == ValidMeshFaceCommands(view, vertices, faces, n)
  {
    var i := 0;
    while i < n
      invariant 0 <= i <= n
      invariant MeshCommands(view, vertices, faces, i) == ValidMeshFaceCommands(view, vertices, faces, i)
    {
      ValidFaceStepIsFaceCommands(view, vertices, faces, i);
      ValidMeshStep(view, vertices, faces, i + 1);
      i := i + 1;
    }
  }

  /** One more face: `ValidMeshSkipsNoFace` for `n` from the same for `n - 1` and face `n - 1`. */
  lemma ValidMeshStep(view: View, vertices: seq<Vertex>, faces: seq<Triangle>, n: nat)
    requires 0 < n <= |faces| && FacesValid(vertices, faces)
    requires MeshCommands(view, vertices, faces, n - 1) == ValidMeshFaceCommands(view, vertices, faces, n - 1)
    requires FaceStep(view, vertices, faces, n - 1) == ValidFaceCommands(view, vertices, faces, n - 1)
    ensures MeshCommands(view, vertices, faces, n) == ValidMeshFaceCommands(view, vertices, faces, n)
  {
  }

  /**
   * Culling and drawing use the corners only: two face lists with the same
   * index triples, whatever normals they cache, draw the same calls.
   */
  lemma {:induction false} RenderIgnoresCachedNormals(view: View, vertices: seq<Vertex>, faces1: seq<Triangle>, faces2: seq<Triangle>, n: nat)
    requires n <= |faces1| == |faces2|
    requires forall f :: 0 <= f < |faces1| ==> faces1[f].myVertexIndices == faces2[f].myVertexIndices
    ensures MeshCommands(view, vertices, faces1, n) == MeshCommands(view, vertices, faces2, n)
  {
    var i := 0;
    while i < n
      invariant 0 <= i <= n
      invariant MeshCommands(view, vertices, faces1, i) == MeshCommands(view, vertices, faces2, i)
    {
      FaceStepIgnoresCachedNormal(view, vertices, faces1, faces2, i);
      assert MeshCommands(view, vertices, faces1, i + 1) ==
        MeshCommands(view, vertices, faces1, i) + FaceStep(view, vertices, faces1, i);
      i := i + 1;
    }
  }

  /** One face's draw calls depend on its index triple, not on its cached normal. */
  lemma FaceStepIgnoresCachedNormal(view: View, vertices: seq<Vertex>, faces1: seq<Triangle>, faces2: seq<Triangle>, f: int)
    requires 0 <= f < |faces1| == |faces2| && faces1[f].myVertexIndices == faces2[f].myVertexIndices
    ensures FaceStep(view, vertices, faces1, f) == FaceStep(view, vertices, faces2, f)
  {
    assert LookupVertexInFace(vertices, faces1, f, 0) == LookupVertexInFace(vertices, faces2, f, 0);
    assert LookupVertexInFace(vertices, faces1, f, 1) == LookupVertexInFace(vertices, faces2, f, 1);
    assert LookupVertexInFace(vertices, faces1, f, 2) == LookupVertexInFace(vertices, faces2, f, 2);
  }

  lemma AppendAssociative(a: seq<DrawCommand>, b: seq<DrawCommand>, c: seq<DrawCommand>)
    ensures (a + b) + c == a + (b + c)
  {
  }

  /** `renderer`: the camera, the screen size of the current frame, the configuration and the draw calls issued. */
  class Renderer {
    var camera: Camera?
    var screenWidth: int
    var screenHeight: int
    var config: RendererConfig
    var frame: seq<DrawCommand>

    /** `NewRenderer`: the given camera and configuration, no screen size yet, nothing drawn. */
    constructor (camera: Camera?, config: RendererConfig)
      ensures this.camera == camera && this.config == config
      ensures screenWidth == 0 && screenHeight == 0 && frame == []
    {
      this.camera := camera;
      this.config := config;
      screenWidth, screenHeight := 0, 0;
      frame := [];
    }

    /** The view the current fields give. */
    function ViewOf(lib: MathLib, randomColor: (Vertex2d, Vertex2d, Vertex2d) -> Color): View
      requires camera != null
      reads this
    {
      View(config, camera, screenWidth, screenHeight, lib, randomColor)
    }

    /**
     * `Render`: stores the screen size, then renders the scene's meshes in
     * order. A nil mesh would be dereferenced, so the scene must hold none.
     */
    method Render(scene: Scene, screenWidth: int, screenHeight: int, lib: MathLib,
                  randomColor: (Vertex2d, Vertex2d, Vertex2d) -> Color)
      requires camera != null
      requires forall i :: 0 <= i < |scene.meshes| ==> scene.meshes[i] != null
      modifies this
      ensures this.screenWidth == screenWidth && this.screenHeight == screenHeight
      ensures camera == old(camera) && config == old(config)
      ensures frame == old(frame) + SceneCommands(ViewOf(lib, randomColor), old(MeshContents(scene.meshes)), |scene.meshes|)
    {
      ghost var contents := MeshContents(scene.meshes);
      this.screenWidth := screenWidth;
      this.screenHeight := screenHeight;
      var meshes := scene.meshes;
      var view := ViewOf(lib, randomColor);
      var i := 0;
      while i < |meshes|
        invariant 0 <= i <= |meshes|
        invariant camera == old(camera) && config == old(config)
        invariant this.screenWidth == screenWidth && this.screenHeight == screenHeight
        invariant frame == old(frame) + SceneCommands(view, contents, i)
      {
        var mesh := meshes[i];
        assert contents[i] == (mesh.myVertices, mesh.myFaces);
        ghost var step := MeshCommands(view, mesh.myVertices, mesh.myFaces, |mesh.myFaces|);
        ghost var done := SceneCommands(view, contents, i);
        assert SceneCommands(view, contents, i + 1) == done + step;
        AppendAssociative(old(frame), done, step);
        RenderMesh(mesh, lib, randomColor);
        assert ViewOf(lib, randomColor) == view;
        i := i + 1;
      }
    }

    /** `SetCamera`: replaces the camera; nothing else changes. */
    method SetCamera(camera: Camera?)
      modifies this
      ensures this.camera == camera
      ensures config == old(config) && screenWidth == old(screenWidth) && screenHeight == old(screenHeight) && frame == old(frame)
    {
      this.camera := camera;
    }

    function GetCamera(): Camera?
      reads this
    {
      camera
    }

    /**
     * `RenderMesh`: visits the faces in order and renders each one whose three
     * corners can be read, from one camera position computed up front.
     */
    method RenderMesh(mesh: Mesh, lib: MathLib, randomColor: (Vertex2d, Vertex2d, Vertex2d) -> Color)
      requires camera != null
      modifies this
      ensures camera == old(camera) && config == old(config)
      ensures screenWidth == old(screenWidth) && screenHeight == old(screenHeight)
      ensures frame == old(frame) + MeshCommands(ViewOf(lib, randomColor), mesh.myVertices, mesh.myFaces, |mesh.myFaces|)
    {
      var faceNumber := mesh.FaceNumber();
      var view := ViewOf(lib, randomColor);
      var cameraPosition := CameraPosition(camera, lib.sin, lib.cos);
      var i := 0;
      while i < faceNumber
        invariant 0 <= i <= faceNumber
        invariant camera == old(camera) && config == old(config)
        invariant screenWidth == old(screenWidth) && screenHeight == old(screenHeight)
        invariant frame == old(frame) + MeshCommands(view, mesh.myVertices, mesh.myFaces, i)
      {
        ghost var done := MeshCommands(view, mesh.myVertices, mesh.myFaces, i);
        ghost var step := FaceStep(view, mesh.myVertices, mesh.myFaces, i);
        assert MeshCommands(view, mesh.myVertices, mesh.myFaces, i + 1) == done + step;
        AppendAssociative(old(frame), done, step);
        RenderMeshFace(mesh, i, cameraPosition, lib, randomColor);
        assert ViewOf(lib, randomColor) == view;
        i := i + 1;
      }
    }

    /** One turn of `RenderMesh`'s loop: face `i` is skipped when a corner cannot be read, and rendered otherwise. */
    method RenderMeshFace(mesh: Mesh, i: int, cameraPosition: Vector, lib: MathLib,
                          randomColor: (Vertex2d, Vertex2d, Vertex2d) -> Color)
      requires camera != null && 0 <= i < |mesh.myFaces|
      requires cameraPosition == CameraPosition(camera, lib.sin, lib.cos)
      modifies this
      ensures camera == old(camera) && config == old(config)
      ensures screenWidth == old(screenWidth) && screenHeight == old(screenHeight)
      ensures frame == old(frame) + FaceStep(ViewOf(lib, randomColor), mesh.myVertices, mesh.myFaces, i)
    {
      var v1, v2, v3 := mesh.VertexInFace(i, 0), mesh.VertexInFace(i, 1), mesh.VertexInFace(i, 2);
      if v1.Err? || v2.Err? || v3.Err? {
        return;
      }
      RenderFace(v1.value, v2.value, v3.value, cameraPosition, lib, randomColor);
    }

    /** `renderFace`: culls, then issues the fill and the outline as configured. */
    method RenderFace(v1: Vertex, v2: Vertex, v3: Vertex, cameraPosition: Vector, lib: MathLib,
                      randomColor: (Vertex2d, Vertex2d, Vertex2d) -> Color)
      requires camera != null
      modifies this
      ensures camera == old(camera) && config == old(config)
      ensures screenWidth == old(screenWidth) && screenHeight == old(screenHeight)
      ensures frame == old(frame) + FaceCommands(ViewOf(lib, randomColor), v1, v2, v3, cameraPosition)
    {
      if config.UseBackfaceCulling && !CheckVisibility(v1, v2, v3, cameraPosition, lib.sqrt) {
        return;
      }
      var view := ViewOf(lib, randomColor);
      var a, b, c := ConvertTo2D(view, v1), ConvertTo2D(view, v2), ConvertTo2D(view, v3);
      if config.DrawFaces {
        frame := frame + [DrawTriangle(a, b, c, FaceColor(config, randomColor(a, b, c)))];
      }
      if config.DrawEdges {
        frame := frame + [DrawTriangleLines(a, b, c, config.EdgeColor)];
      }
    }

    /** `SetConfig`: replaces the configuration; nothing else changes. */
    method SetConfig(config: RendererConfig)
      modifies this
      ensures this.config == config
      ensures camera == old(camera) && screenWidth == old(screenWidth) && screenHeight == old(screenHeight) && frame == old(frame)
    {
      this.config := config;
    }

    function GetConfig(): RendererConfig
      reads this
    {
      config
    }
  }

  /** `NewRendererWithDefaults`: a renderer on the default configuration. */
  method NewRendererWithDefaults(camera: Camera?) returns (r: Renderer)
    ensures fresh(r) && r.camera == camera && r.config == DefaultRendererConfig() && r.frame == []
  {
    r := new Renderer(camera, DefaultRendererConfig());
  }

  /** Setting a camera and a configuration and reading them back gives the same ones. */
  method SetGetScenario(camera: Camera, config: RendererConfig) returns (r: Renderer)
    ensures r.GetCamera() == camera && r.GetConfig() == config
  {
    r := NewRendererWithDefaults(null);
    r.SetCamera(camera);
    r.SetConfig(config);
  }
}
