/**
 * The plugin (`TiledPlugin`): its configuration, the builder-style setters,
 * `build` (which reads both documents, overrides the tileset image with the
 * configured path, inserts the resources and schedules the two startup
 * systems), and the startup run that the schedule admits.
 */
module Plugin {
  import opened Wrappers
  import opened Geometry
  import opened Resource
  import opened Atlas
  import opened Bundles
  import opened World

  /**
   * The object-insert function a host configures. Function pointers are
   * opaque here: the default no-op, or a host function identified by a tag.
   * The world builder never calls it.
   */
  datatype InsertFunc = NoOpInsert | HostInsert(tag: nat)

  /** The two startup systems the plugin registers. */
  datatype StartupSystem = InitAssetSystem | SpawnWorldSystem

  /** A set of startup systems with "runs before" constraints between them. */
  datatype Schedule = Schedule(systems: seq<StartupSystem>, before: set<(StartupSystem, StartupSystem)>)

  /** The resources `build` inserts into the app, and its startup schedule. */
  datatype App = App(objectInsertFunc: InsertFunc, mapPos: Vec2, mapScale: real,
                     tiledMap: TiledMap, tileSet: TileSet, startup: Schedule)

  /** An execution order that runs every scheduled system once and honours every constraint. */
  ghost predicate AdmissibleOrder(schedule: Schedule, order: seq<StartupSystem>)
  {
    && multiset(order) == multiset(schedule.systems)
    && forall i, j | 0 <= i < |order| && 0 <= j < |order| && (order[i], order[j]) in schedule.before :: i < j
  }

  /** The startup schedule `build` registers: both systems, atlas initialisation before world building. */
  function StartupSchedule(): Schedule
  {
    Schedule([InitAssetSystem, SpawnWorldSystem], {(InitAssetSystem, SpawnWorldSystem)})
  }

  /** The only order the plugin's schedule admits runs atlas initialisation first. */
  lemma StartupScheduleOrder(order: seq<StartupSystem>)
    ensures AdmissibleOrder(StartupSchedule(), order) <==> order == [InitAssetSystem, SpawnWorldSystem]
  {
  }

  /** Why a startup run stops: world building needs the atlas resource, which is not there yet. */
  datatype StartupError = MissingTilesImage

  /** What startup produces: the atlas resource, once inserted, and the queued spawns. */
  datatype StartupState = StartupState(tilesImage: Option<TilesImage>, commands: seq<Spawn>)

  /** The preconditions both startup systems have on the app's resources. */
  predicate Runnable(app: App)
  {
    app.tileSet.columns > 0 && WellFormedMap(app.tiledMap)
  }

  /** Runs one startup system against the app's resources. */
  function RunSystem(app: App, state: StartupState, system: StartupSystem): Result<StartupState, StartupError>
    requires Runnable(app)
  {
    match system
    case InitAssetSystem => Success(state.(tilesImage := Some(InitAsset(app.tileSet))))
    case SpawnWorldSystem =>
      match state.tilesImage
      case None => Failure(MissingTilesImage)
      case Some(tilesImage) =>
        var res := WorldResources(app.tiledMap, tilesImage, app.mapScale, app.mapPos);
        Success(state.(commands := state.commands + WorldSpawns(res, |app.tiledMap.layers|)))
  }

  /** Runs the startup systems in the given order, stopping at the first failure. */
  function RunStartup(app: App, state: StartupState, order: seq<StartupSystem>): Result<StartupState, StartupError>
    requires Runnable(app)
    decreases |order|
  {
    if order == [] then Success(state)
    else
      match RunSystem(app, state, order[0])
      case Failure(e) => Failure(e)
      case Success(next) => RunStartup(app, next, order[1..])
  }

  /**
   * Every order the plugin's schedule admits initialises the atlas from the
   * tileset and then queues exactly the world's spawns on top of it.
   */
  lemma StartupSpawnsWorld(app: App, order: seq<StartupSystem>)
    requires Runnable(app) && app.startup == StartupSchedule()
    requires AdmissibleOrder(app.startup, order)
    ensures var tilesImage := InitAsset(app.tileSet);
            var res := WorldResources(app.tiledMap, tilesImage, app.mapScale, app.mapPos);
            RunStartup(app, StartupState(None, []), order)
              == Success(StartupState(Some(tilesImage), WorldSpawns(res, |app.tiledMap.layers|)))
  {
    StartupScheduleOrder(order);
    var tilesImage := InitAsset(app.tileSet);
    var afterInit := StartupState(Some(tilesImage), []);
    assert RunSystem(app, StartupState(None, []), InitAssetSystem) == Success(afterInit);
    assert order[1..] == [SpawnWorldSystem] && order[1..][1..] == [];
    assert RunStartup(app, StartupState(None, []), order) == RunStartup(app, afterInit, [SpawnWorldSystem]);
    var res := WorldResources(app.tiledMap, tilesImage, app.mapScale, app.mapPos);
    var spawns := WorldSpawns(res, |app.tiledMap.layers|);
    assert [] + spawns == spawns;
    assert RunSystem(app, afterInit, SpawnWorldSystem) == Success(StartupState(Some(tilesImage), spawns));
    assert [SpawnWorldSystem][1..] == [];
  }

  /**
   * Without the "runs before" constraint the reverse order is admissible,
   * and it stops because the atlas resource is missing.
   */
  lemma UnorderedStartupFails(app: App)
    requires Runnable(app)
    ensures AdmissibleOrder(Schedule(StartupSchedule().systems, {}), [SpawnWorldSystem, InitAssetSystem])
    ensures RunStartup(app, StartupState(None, []), [SpawnWorldSystem, InitAssetSystem]) == Failure(MissingTilesImage)
  {
  }

  /** The plugin's configuration; the setters replace one field each. */
  class TiledPlugin {
    var tiledMapPath: string
    var tileSetPath: string
    var imgPath: string
    var scale: real
    var position: Vec2
    var objectInsertFunc: InsertFunc

    /** The given paths and scale, the origin at (0, 0) and the no-op insert function. */
    constructor FromJson(tiledMapPath: string, tileSetPath: string, imgPath: string, scale: real)
      ensures this.tiledMapPath == tiledMapPath && this.tileSetPath == tileSetPath
      ensures this.imgPath == imgPath && this.scale == scale
      ensures position == Vec2(0.0, 0.0) && objectInsertFunc == NoOpInsert
    {
      this.tileSetPath := tileSetPath;
      this.tiledMapPath := tiledMapPath;
      this.imgPath := imgPath;
      this.position := Vec2(0.0, 0.0);
      this.scale := scale;
      this.objectInsertFunc := NoOpInsert;
    }

    /** Replaces the origin offset; nothing else changes. */
    method SetPosition(pos: Vec2)
      modifies this
      ensures position == pos
      ensures tiledMapPath == old(tiledMapPath) && tileSetPath == old(tileSetPath) && imgPath == old(imgPath)
      ensures scale == old(scale) && objectInsertFunc == old(objectInsertFunc)
    {
      position := pos;
    }

    /** Replaces the object-insert function; nothing else changes. */
    method SetObjectInsertFunc(func: InsertFunc)
      modifies this
      ensures objectInsertFunc == func
      ensures tiledMapPath == old(tiledMapPath) && tileSetPath == old(tileSetPath) && imgPath == old(imgPath)
      ensures scale == old(scale) && position == old(position)
    {
      objectInsertFunc := func;
    }

    /**
     * Reads the two documents (`readMap` and `readTileSet` stand for loading
     * and parsing the file at a path), replaces the tileset's image with the
     * configured image path, inserts the resources, and registers the startup
     * schedule, whose one admissible order initialises the atlas first.
     */
    method Build(readMap: string -> TiledMap, readTileSet: string -> TileSet) returns (app: App)
      ensures app.tiledMap == readMap(tiledMapPath)
      ensures app.tileSet == readTileSet(tileSetPath).(image := imgPath)
      ensures app.objectInsertFunc == objectInsertFunc && app.mapPos == position && app.mapScale == scale
      ensures app.startup == StartupSchedule()
      ensures forall order :: AdmissibleOrder(app.startup, order) <==> order == [InitAssetSystem, SpawnWorldSystem]
    {
      var tiledMap := readMap(tiledMapPath);
      var tileSet := readTileSet(tileSetPath);
      tileSet := tileSet.(image := imgPath);
      app := App(objectInsertFunc, position, scale, tiledMap, tileSet, StartupSchedule());
      forall order
        ensures AdmissibleOrder(app.startup, order) <==> order == [InitAssetSystem, SpawnWorldSystem]
      {
        StartupScheduleOrder(order);
      }
    }
  }
}
