/**
  The engine application state (crates/engine_core/src/lib.rs): a world, an
  edit schedule, a play schedule and the current mode. Running a schedule
  against the world is opaque; the world only records which schedule ran.
*/
module EngineCore {

  datatype Mode = Edit | Play

  /** The ECS world; `runs` lists the schedules run against it, oldest first. */
  class World {
    var runs: seq<Schedule>

    constructor ()
      ensures runs == []
    {
      runs := [];
    }
  }

  /** A system schedule. What its systems do is not modelled. */
  class Schedule {
    constructor () {}

    /** `Schedule::run`: runs this schedule against `world` once. */
    method Run(world: World)
      modifies world
      ensures world.runs == old(world.runs) + [this]
    {
      world.runs := world.runs + [this];
    }
  }

  class EngineApp {
    var world: World
    var editSchedule: Schedule
    var playSchedule: Schedule
    var mode: Mode

    /** The two schedules are distinct objects. */
    ghost predicate Valid()
      reads this
    {
      editSchedule != playSchedule
    }

    /** `EngineApp::default`: a new world, two new schedules, mode Edit. */
    constructor Default()
      ensures Valid()
      ensures mode == Edit
      ensures fresh(world) && fresh(editSchedule) && fresh(playSchedule)
      ensures world.runs == []
    {
      world := new World();
      editSchedule := new Schedule();
      playSchedule := new Schedule();
      mode := Edit;
    }

    /** `update`: runs exactly one schedule, the edit schedule when the mode is
        Edit and the play schedule when it is Play; the mode does not change. */
    method Update()
      requires Valid()
      modifies world
      ensures world.runs == old(world.runs) + [if mode == Edit then editSchedule else playSchedule]
      ensures world.runs[|world.runs| - 1] == editSchedule <==> mode == Edit
      ensures world.runs[|world.runs| - 1] == playSchedule <==> mode == Play
      ensures mode == old(mode)
    {
      match mode
      case Edit => editSchedule.Run(world);
      case Play => playSchedule.Run(world);
    }
  }

  /** `set_mode`: sets the mode to `mode` and changes nothing else. Calling it
      again with the same mode leaves the same state, since the result does not
      depend on the previous mode. */
  method SetMode(app: EngineApp, mode: Mode)
    modifies app
    ensures app.mode == mode
    ensures app.world == old(app.world) && app.editSchedule == old(app.editSchedule)
    ensures app.playSchedule == old(app.playSchedule)
  {
    app.mode := mode;
  }

  /** `set_mode` is idempotent: a second call with the same mode leaves the
      state the first call produced. */
  method SetModeTwice(app: EngineApp, mode: Mode)
    modifies app
    ensures app.mode == mode
    ensures app.world == old(app.world) && app.editSchedule == old(app.editSchedule)
    ensures app.playSchedule == old(app.playSchedule)
  {
    SetMode(app, mode);
    ghost var once := (app.mode, app.world, app.editSchedule, app.playSchedule);
    SetMode(app, mode);
    assert (app.mode, app.world, app.editSchedule, app.playSchedule) == once;
  }
}
