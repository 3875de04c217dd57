/**
 * `vis/Scene.go`: a list of meshes that only grows. `AddMesh` does not check
 * for nil, so the list holds possibly-nil mesh references.
 */
module VisScene {
  import opened GeomMesh

  /** `Scene`: the meshes in the order they were added. */
  class Scene {
    var meshes: seq<Mesh?>

    /** `NewScene`: no meshes. */
    constructor ()
      ensures meshes == []
    {
      meshes := [];
    }

    /** `AddMesh`: appends `m`, nil included; the meshes already there keep their places. */
    method AddMesh(m: Mesh?)
      modifies this
      ensures meshes == old(meshes) + [m]
      ensures |meshes| == |old(meshes)| + 1 && meshes[..|old(meshes)|] == old(meshes) && meshes[|old(meshes)|] == m
    {
      meshes := meshes + [m];
    }
  }

  /** Two meshes added to a new scene are held in the order they were added, nil included. */
  method SceneScenario(a: Mesh) returns (s: Scene)
    ensures s.meshes == [a, null]
  {
    s := new Scene();
    s.AddMesh(a);
    s.AddMesh(null);
  }
}
