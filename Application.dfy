/**
 * `vis/Application.go`: the application object that owns the window settings,
 * the renderer, the list of scenes and the GUI manager. Opening and closing
 * the window, the main loop and the per-frame update function are raylib and
 * clock work outside this model. The scene `CreateTestScene` builds (a cube,
 * in `vis/test_scene.go`) is not part of this model; `NewApplication` takes it
 * as the parameter `testScene`.
 */
module VisApplication {
  import opened Wrappers
  import opened VisCamera
  import opened VisRenderer
  import opened VisScene
  import opened GuiManager

  /** `ApplicationConfig`: window size and title, frame rate, camera and renderer settings. */
  datatype ApplicationConfig = ApplicationConfig(
    Width: int, Height: int, Title: string, TargetFPS: int,
    Camera: CameraConfig, Renderer: RendererConfig, LoadTestScene: bool)

  /** `DefaultApplicationConfig`: a 1080 by 720 window at 60 frames per second, default camera and renderer, no test scene. */
  function DefaultApplicationConfig(): (c: ApplicationConfig)
    ensures c.Width == 1080 && c.Height == 720 && c.TargetFPS == 60
    ensures c.Title == "3D Visualization App" && !c.LoadTestScene
    ensures c.Camera == DefaultCameraConfig() && c.Renderer == DefaultRendererConfig()
  {
    ApplicationConfig(1080, 720, "3D Visualization App", 60, DefaultCameraConfig(), DefaultRendererConfig(), false)
  }

  /** The errors of `NewApplication` and `RemoveScene`, carrying the values they report. */
  datatype ApplicationError =
    | InvalidWindowSize(width: int, height: int)
    | NonPositiveTargetFPS(fps: int)
    | CameraFailed(cause: CameraError)
    | SceneIndexOutOfBounds(index: int, count: int)

  /**
   * The checks of `NewApplication`, in its order: a positive window size, then
   * a positive frame rate, then a camera configuration `NewCamera` accepts.
   */
  function CheckApplicationConfig(config: ApplicationConfig): (r: Outcome<ApplicationError>)
    ensures r.Pass? <==>
      0 < config.Width && 0 < config.Height && 0 < config.TargetFPS && CheckCameraConfig(config.Camera).Pass?
    ensures r == Fail(InvalidWindowSize(config.Width, config.Height)) <==> config.Width <= 0 || config.Height <= 0
    ensures r == Fail(NonPositiveTargetFPS(config.TargetFPS)) <==>
      0 < config.Width && 0 < config.Height && config.TargetFPS <= 0
    ensures r.Fail? && r.error.CameraFailed? <==>
      0 < config.Width && 0 < config.Height && 0 < config.TargetFPS && CheckCameraConfig(config.Camera).Fail?
    ensures r.Fail? && r.error.CameraFailed? ==> Fail(r.error.cause) == CheckCameraConfig(config.Camera)
  {
    if config.Width <= 0 || config.Height <= 0 then Fail(InvalidWindowSize(config.Width, config.Height))
    else if config.TargetFPS <= 0 then Fail(NonPositiveTargetFPS(config.TargetFPS))
    else
      match CheckCameraConfig(config.Camera)
      case Fail(e) => Fail(CameraFailed(e))
      case Pass => Pass
  }

  /** The default configuration passes every check, so `NewApplicationWithDefaults` never fails. */
  lemma DefaultApplicationConfigAccepted()
    ensures CheckApplicationConfig(DefaultApplicationConfig()) == Pass
  {
    DefaultConfigAccepted();
  }

  /**
   * The list without position `i`: one shorter, the elements before `i` in
   * their places, the ones after `i` moved down by one, and one copy of
   * `s[i]` fewer.
   */
  function RemoveAt<T>(s: seq<T>, i: int): (r: seq<T>)
    requires 0 <= i < |s|
    ensures |r| == |s| - 1
    ensures forall j :: 0 <= j < i ==> r[j] == s[j]
    ensures forall j :: i <= j < |r| ==> r[j] == s[j + 1]
    ensures multiset(r) == multiset(s) - multiset{s[i]}
  {
    assert s == s[..i] + [s[i]] + s[i + 1..];
    s[..i] + s[i + 1..]
  }

  /** `Application`: its configuration, renderer, scenes in the order added, and GUI manager. */
  class Application {
    var config: ApplicationConfig
    var renderer: Renderer
    var scenes: seq<Scene>
    var gui: Manager

    /** The fields `NewApplication` fills in once its checks have passed. */
    constructor (config: ApplicationConfig, renderer: Renderer)
      ensures this.config == config && this.renderer == renderer && scenes == []
      ensures fresh(gui) && gui.elements == [] && gui.enabled
    {
      this.config := config;
      this.renderer := renderer;
      scenes := [];
      gui := new Manager();
    }

    /** `AddScene`: appends a non-nil scene; nil is ignored. */
    method AddScene(scene: Scene?)
      modifies this
      ensures scene != null ==> scenes == old(scenes) + [scene]
      ensures scene == null ==> scenes == old(scenes)
      ensures config == old(config) && renderer == old(renderer) && gui == old(gui)
    {
      if scene != null {
        scenes := scenes + [scene];
      }
    }

    /**
     * `RemoveScene`: an index outside the list is an error that changes
     * nothing; otherwise exactly the scene at `index` goes and the others keep
     * their order.
     */
    method RemoveScene(index: int) returns (err: Option<ApplicationError>)
      modifies this
      ensures !(0 <= index < |old(scenes)|) ==>
        err == Some(SceneIndexOutOfBounds(index, |old(scenes)|)) && scenes == old(scenes)
      ensures 0 <= index < |old(scenes)| ==> err == None && scenes == RemoveAt(old(scenes), index)
      ensures config == old(config) && renderer == old(renderer) && gui == old(gui)
    {
      if index < 0 || index >= |scenes| {
        return Some(SceneIndexOutOfBounds(index, |scenes|));
      }
      scenes := scenes[..index] + scenes[index + 1..];
      err := None;
    }

    /** `GetScenes`: a new array holding the scenes in order. */
    method GetScenes() returns (result: array<Scene>)
      ensures fresh(result) && result[..] == scenes
    {
      result := new Scene[|scenes|](i requires 0 <= i < |scenes| reads this => scenes[i]);
    }

    /** `GetRenderer`. */
    function GetRenderer(): Renderer
      reads this
    {
      renderer
    }

    /** `GetGUI`. */
    function GetGUI(): Manager
      reads this
    {
      gui
    }
  }

  /**
   * `NewApplication`: nil and the first failed check's error for a bad
   * configuration; otherwise a new application whose renderer holds a new
   * camera on the configured values and the configured renderer settings,
   * with an empty GUI, and with `testScene` as its only scene when the
   * configuration asks for the test scene and no scene otherwise.
   */
  method NewApplication(config: ApplicationConfig, testScene: Scene) returns (app: Application?, err: Option<ApplicationError>)
    ensures CheckApplicationConfig(config).Fail? ==> app == null && err == Some(CheckApplicationConfig(config).error)
    ensures CheckApplicationConfig(config).Pass? ==>
      err == None && app != null && fresh(app) && app.config == config
    ensures app != null ==>
      fresh(app.renderer) && app.renderer.config == config.Renderer && app.renderer.frame == [] &&
      app.renderer.camera != null && fresh(app.renderer.camera) &&
      app.renderer.camera.Config() == config.Camera && app.renderer.camera.Valid() &&
      fresh(app.gui) && app.gui.elements == [] && app.gui.enabled &&
      app.scenes == if config.LoadTestScene then [testScene] else []
  {
    if config.Width <= 0 || config.Height <= 0 {
      return null, Some(InvalidWindowSize(config.Width, config.Height));
    }
    if config.TargetFPS <= 0 {
      return null, Some(NonPositiveTargetFPS(config.TargetFPS));
    }
    var camera, cameraErr := NewCamera(config.Camera);
    if cameraErr.Some? {
      return null, Some(CameraFailed(cameraErr.value));
    }
    var renderer := new Renderer(camera, config.Renderer);
    app := new Application(config, renderer);
    if config.LoadTestScene {
      app.AddScene(testScene);
    }
    err := None;
  }

  /** `NewApplicationWithDefaults`: an application on the default configuration, never nil, with no scene. */
  method NewApplicationWithDefaults(testScene: Scene) returns (app: Application?)
    ensures app != null && fresh(app) && app.config == DefaultApplicationConfig() && app.scenes == []
  {
    DefaultApplicationConfigAccepted();
    var err;
    app, err := NewApplication(DefaultApplicationConfig(), testScene);
  }

  /** Nil is not added, removing position 0 shifts the rest down, and a bad index changes nothing. */
  method SceneListScenario(app: Application, a: Scene, b: Scene) returns (tooFar: Option<ApplicationError>)
    requires app.scenes == []
    modifies app
    ensures app.scenes == [b]
    ensures tooFar == Some(SceneIndexOutOfBounds(1, 1))
  {
    app.AddScene(a);
    app.AddScene(null);
    app.AddScene(b);
    assert app.scenes == [a, b];
    var first := app.RemoveScene(0);
    assert app.scenes == [b];
    tooFar := app.RemoveScene(1);
  }
}
