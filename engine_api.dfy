/**
  The engine's host-facing shell (crates/engine_wasm_api/src/lib.rs): the
  options builder, `init`, and the `Engine` methods `mount`, `tick`,
  `load_scene_from_ron` and `set_play_mode`.

  Browser lookups and RON parsing are foreign calls; they are parameters here.
*/
module WasmApi {
  import opened Wrappers
  import opened EngineTypes
  import opened EngineScene
  import opened EngineCore

  datatype EngineOptions = EngineOptions(
    canvasId: Option<string>,
    assetsBaseUrl: Option<string>,
    enable2d: bool,
    enable3d: bool)

  /** `EngineOptions::new`: no canvas, no asset URL, 2D and 3D enabled. */
  function NewOptions(): (o: EngineOptions)
    ensures o.canvasId.None? && o.assetsBaseUrl.None?
    ensures o.enable2d && o.enable3d
  {
    EngineOptions(None, None, true, true)
  }

  /** Each builder setter sets its own field and keeps the other three. */
  function WithCanvasId(o: EngineOptions, id: string): (r: EngineOptions)
    ensures r.canvasId == Some(id)
    ensures r.assetsBaseUrl == o.assetsBaseUrl && r.enable2d == o.enable2d && r.enable3d == o.enable3d
  {
    o.(canvasId := Some(id))
  }

  function WithAssetsBaseUrl(o: EngineOptions, url: string): (r: EngineOptions)
    ensures r.assetsBaseUrl == Some(url)
    ensures r.canvasId == o.canvasId && r.enable2d == o.enable2d && r.enable3d == o.enable3d
  {
    o.(assetsBaseUrl := Some(url))
  }

  function WithEnable2d(o: EngineOptions, v: bool): (r: EngineOptions)
    ensures r.enable2d == v
    ensures r.canvasId == o.canvasId && r.assetsBaseUrl == o.assetsBaseUrl && r.enable3d == o.enable3d
  {
    o.(enable2d := v)
  }

  function WithEnable3d(o: EngineOptions, v: bool): (r: EngineOptions)
    ensures r.enable3d == v
    ensures r.canvasId == o.canvasId && r.assetsBaseUrl == o.assetsBaseUrl && r.enable2d == o.enable2d
  {
    o.(enable3d := v)
  }

  /** A canvas element, as an opaque handle. */
  datatype Canvas = Canvas(handle: nat)

  /** What the browser lookup of a canvas id yields, step by step: the window,
      the document, the element, the cast to a canvas. */
  datatype DomLookup = NoWindow | NoDocument | ElementNotFound | NotACanvas | Found(canvas: Canvas)

  /** The error message `init` reports for a failed lookup. */
  function LookupError(d: DomLookup): string
    requires !d.Found?
  {
    match d
    case NoWindow => "no window"
    case NoDocument => "no document"
    case ElementNotFound => "canvas not found"
    case NotACanvas => "bad canvas"
  }

  /** `Play` exactly when `play` is set. */
  function ModeFor(play: bool): (m: Mode)
    ensures m == Play <==> play
    ensures m == Edit <==> !play
  {
    if play then Play else Edit
  }

  class Engine {
    const app: EngineApp
    const canvas: Option<Canvas>

    ghost predicate Valid()
      reads this, app
    {
      app.Valid()
    }

    constructor (app: EngineApp, canvas: Option<Canvas>)
      ensures this.app == app && this.canvas == canvas
    {
      this.app := app;
      this.canvas := canvas;
    }

    /** `mount`: fails exactly when no canvas is bound. It has no frame, so it
        changes nothing. */
    method Mount() returns (r: Result<(), string>)
      ensures r.Err? <==> canvas.None?
      ensures r.Err? ==> r.error == "no canvas bound"
    {
      if canvas.None? {
        return Err("no canvas bound");
      }
      return Ok(());
    }

    /** `tick`: ignores `dt` and updates the app once under its current mode. */
    method Tick(dt: F32)
      requires Valid()
      modifies app.world
      ensures app.world.runs == old(app.world.runs)
        + [if app.mode == Edit then app.editSchedule else app.playSchedule]
      ensures app.mode == old(app.mode)
    {
      app.Update();
    }

    /** `load_scene_from_ron`: reports the parser's error, if any. The parsed
        scene is dropped, and the method has no frame: engine state is the
        same whether parsing succeeds or fails. */
    method LoadSceneFromRon(ron: string, parse: string -> Result<Scene, string>) returns (r: Result<(), string>)
      ensures r.Err? <==> parse(ron).Err?
      ensures r.Err? ==> r.error == parse(ron).error
    {
      var parsed := parse(ron);
      if parsed.Err? {
        return Err(parsed.error);
      }
      return Ok(());
    }

    /** `set_play_mode`: Play for true, Edit for false; nothing else changes. */
    method SetPlayMode(play: bool)
      modifies app
      ensures app.mode == ModeFor(play)
      ensures app.world == old(app.world) && app.editSchedule == old(app.editSchedule)
      ensures app.playSchedule == old(app.playSchedule)
    {
      SetMode(app, ModeFor(play));
    }
  }

  /** `init`: with a canvas id, the lookup must find a canvas, else its error is
      returned; without one, no canvas is bound. The app is a default one. */
  method Init(opts: EngineOptions, lookup: string -> DomLookup) returns (r: Result<Engine, string>)
    ensures opts.canvasId.Some? && !lookup(opts.canvasId.value).Found? ==>
      r == Err(LookupError(lookup(opts.canvasId.value)))
    ensures opts.canvasId.None? ==> r.Ok? && r.value.canvas.None?
    ensures opts.canvasId.Some? && lookup(opts.canvasId.value).Found? ==>
      r.Ok? && r.value.canvas == Some(lookup(opts.canvasId.value).canvas)
    ensures r.Ok? ==> fresh(r.value) && fresh(r.value.app) && r.value.Valid()
    ensures r.Ok? ==> fresh(r.value.app.world) && fresh(r.value.app.editSchedule) && fresh(r.value.app.playSchedule)
    ensures r.Ok? ==> r.value.app.mode == Edit && r.value.app.world.runs == []
  {
    var canvas: Option<Canvas> := None;
    if opts.canvasId.Some? {
      var found := lookup(opts.canvasId.value);
      if !found.Found? {
        return Err(LookupError(found));
      }
      canvas := Some(found.canvas);
    }
    var app := new EngineApp.Default();
    var engine := new Engine(app, canvas);
    return Ok(engine);
  }

  /** An engine initialised without a canvas id starts in Edit mode and cannot
      be mounted. */
  method InitWithoutCanvasCannotMount(lookup: string -> DomLookup) returns (mode: Mode, mounted: Result<(), string>)
    ensures mode == Edit
    ensures mounted == Err("no canvas bound")
  {
    var r := Init(NewOptions(), lookup);
    var engine := r.value;
    mode := engine.app.mode;
    mounted := engine.Mount();
  }

  /** A freshly initialised engine can be driven at once: ticking in Edit mode,
      switching to Play, ticking, switching back and ticking again runs the
      edit, play and edit schedules in that order. */
  method InitThenTickThroughModes(opts: EngineOptions, lookup: string -> DomLookup)
    returns (r: Result<Engine, string>)
    ensures r.Ok? ==> r.value.app.mode == Edit
    ensures r.Ok? ==>
      var app := r.value.app;
      app.world.runs == [app.editSchedule, app.playSchedule, app.editSchedule]
    ensures r.Ok? ==> r.value.app.editSchedule != r.value.app.playSchedule
  {
    r := Init(opts, lookup);
    if r.Ok? {
      var engine := r.value;
      engine.Tick(ZERO);
      engine.SetPlayMode(true);
      engine.Tick(ZERO);
      engine.SetPlayMode(false);
      engine.Tick(ZERO);
    }
  }
}
