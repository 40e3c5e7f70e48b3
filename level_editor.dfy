/**
 * The data side of client/src/pages/LevelEditor.tsx: a click places an
 * object of the selected tool on a 50-pixel grid, and the export splits
 * the placed objects into the lists of a level file.
 */
module LevelEditor {
  import opened Geometry
  import opened Seqs
  import opened Wrappers

  datatype Tool = PlatformTool | CoinTool | EnemyTool | PowerUpTool

  /** The tool's name, which becomes the object's `type`. */
  function ToolName(t: Tool): string
  {
    match t
    case PlatformTool => "platform"
    case CoinTool => "coin"
    case EnemyTool => "enemy"
    case PowerUpTool => "powerup"
  }

  /** A placed object; `speed` and `patrolDistance` exist on enemies only. */
  datatype EditorObject = EditorObject(
    kind: string, x: real, y: real, width: real, height: real,
    speed: Option<real>, patrolDistance: Option<real>)

  /** `Math.round`: the nearest integer, halves rounded up. */
  function Round(v: real): int
  {
    (v + 0.5).Floor
  }

  /**
   * `Math.round(v / 50) * 50`: the grid line nearest to `v`, within half a
   * cell of it; a click exactly half-way goes to the larger line.
   */
  function Snap(v: real): (r: real)
    ensures v - 25.0 < r <= v + 25.0
    ensures (r / 50.0).Floor as real == r / 50.0
  {
    var k := Round(v / 50.0);
    assert (k as real) <= v / 50.0 + 0.5 < (k as real) + 1.0;
    assert ((k as real) * 50.0) / 50.0 == k as real;
    (k as real) * 50.0
  }

  /** A value already on the grid stays put. */
  lemma SnapIdempotent(v: real)
    ensures Snap(Snap(v)) == Snap(v)
  {
    var k := Round(v / 50.0);
    assert Snap(v) / 50.0 == k as real;
    assert (k as real + 0.5).Floor == k;
  }

  /**
   * The object literal: the tool's name, the snapped position, then the
   * tool's fields. The power-up tool's spread ends with `type: 'speed'`,
   * which overwrites the name.
   */
  function NewObject(tool: Tool, x: real, y: real): (o: EditorObject)
    ensures o.x == x && o.y == y
    ensures tool == PowerUpTool <==> o.kind == "speed"
    ensures tool != PowerUpTool ==> o.kind == ToolName(tool)
    ensures (o.speed.Some? || o.patrolDistance.Some?) <==> tool == EnemyTool
    ensures tool == PlatformTool ==> o.width == 100.0 && o.height == 30.0
    ensures tool == CoinTool ==> o.width == 20.0 && o.height == 20.0
    ensures tool == EnemyTool ==> o.width == 32.0 && o.height == 32.0 && o.speed == Some(50.0) && o.patrolDistance == Some(100.0)
    ensures tool == PowerUpTool ==> o.width == 24.0 && o.height == 24.0
  {
    match tool
    case PlatformTool => EditorObject("platform", x, y, 100.0, 30.0, None, None)
    case CoinTool => EditorObject("coin", x, y, 20.0, 20.0, None, None)
    case EnemyTool => EditorObject("enemy", x, y, 32.0, 32.0, Some(50.0), Some(100.0))
    case PowerUpTool => EditorObject("speed", x, y, 24.0, 24.0, None, None)
  }

  /**
   * `addObject`: nothing without a canvas; otherwise the click, taken
   * relative to the canvas's top-left corner and snapped, places one new
   * object after the existing ones.
   */
  function AddObject(objects: seq<EditorObject>, canvas: Option<Rect>, tool: Tool, clientX: real, clientY: real)
    : (r: seq<EditorObject>)
    ensures canvas.None? ==> r == objects
    ensures canvas.Some? ==> |r| == |objects| + 1 && r[..|objects|] == objects
    ensures canvas.Some? ==> r[|objects|].kind == NewObject(tool, 0.0, 0.0).kind &&
                             clientX - canvas.value.x - 25.0 < r[|objects|].x <= clientX - canvas.value.x + 25.0 &&
                             clientY - canvas.value.y - 25.0 < r[|objects|].y <= clientY - canvas.value.y + 25.0
    ensures canvas.Some? ==> r[|objects|] == NewObject(tool, Snap(clientX - canvas.value.x), Snap(clientY - canvas.value.y))
    ensures canvas.Some? ==> (r[|objects|].x / 50.0).Floor as real == r[|objects|].x / 50.0 &&
                             (r[|objects|].y / 50.0).Floor as real == r[|objects|].y / 50.0
  {
    match canvas
    case None => objects
    case Some(bounds) =>
      objects + [NewObject(tool, Snap(clientX - bounds.x), Snap(clientY - bounds.y))]
  }

  /** What `exportLevel` writes. */
  datatype LevelFile = LevelFile(
    playerStart: (real, real), platforms: seq<EditorObject>, coins: seq<EditorObject>,
    enemies: seq<EditorObject>, powerUps: seq<EditorObject>, goal: Rect)

  function OfKind(kind: string): EditorObject -> bool
  {
    (o: EditorObject) => o.kind == kind
  }

  /** `exportLevel`: one list per type name, in placement order, and a fixed start and goal. */
  function ExportLevel(objects: seq<EditorObject>): (f: LevelFile)
    ensures f.playerStart == (50.0, 400.0) && f.goal == Rect(2200.0, 410.0, 40.0, 150.0)
  {
    LevelFile((50.0, 400.0),
              Filter(objects, OfKind("platform")), Filter(objects, OfKind("coin")),
              Filter(objects, OfKind("enemy")), Filter(objects, OfKind("powerup")),
              Rect(2200.0, 410.0, 40.0, 150.0))
  }

  /** Objects the editor can hold: every one made by `NewObject`. */
  ghost predicate Placed(objects: seq<EditorObject>)
  {
    forall i :: 0 <= i < |objects| ==> exists t: Tool, x: real, y: real :: objects[i] == NewObject(t, x, y)
  }

  /** The editor starts empty, and every click keeps its objects placeable. */
  lemma AddObjectKeepsPlaced(objects: seq<EditorObject>, canvas: Option<Rect>, tool: Tool, clientX: real, clientY: real)
    requires Placed(objects)
    ensures Placed([])
    ensures Placed(AddObject(objects, canvas, tool, clientX, clientY))
  {
    var r := AddObject(objects, canvas, tool, clientX, clientY);
    if canvas.Some? {
      var bounds := canvas.value;
      assert r[|objects|] == NewObject(tool, Snap(clientX - bounds.x), Snap(clientY - bounds.y));
      forall i | 0 <= i < |r|
        ensures exists t: Tool, x: real, y: real :: r[i] == NewObject(t, x, y)
      {
        if i < |objects| {
          assert r[i] == objects[i];
        } else {
          assert r[i] == NewObject(tool, Snap(clientX - bounds.x), Snap(clientY - bounds.y));
        }
      }
    }
  }

  /** Each exported list holds exactly the objects of its type. */
  lemma ExportSelectsByType(objects: seq<EditorObject>)
    ensures var f := ExportLevel(objects);
            (forall o :: o in f.platforms <==> o in objects && o.kind == "platform") &&
            (forall o :: o in f.coins <==> o in objects && o.kind == "coin") &&
            (forall o :: o in f.enemies <==> o in objects && o.kind == "enemy") &&
            (forall o :: o in f.powerUps <==> o in objects && o.kind == "powerup")
  {
    FilterMembers(objects, OfKind("platform"));
    FilterMembers(objects, OfKind("coin"));
    FilterMembers(objects, OfKind("enemy"));
    FilterMembers(objects, OfKind("powerup"));
  }

  /**
   * No placed object has type "powerup", so the exported power-up list is
   * always empty, and power-up-tool objects (type "speed") are in no list;
   * every other object is in exactly one list.
   */
  lemma {:induction false} ExportLosesPowerUps(objects: seq<EditorObject>)
    requires Placed(objects)
    decreases |objects|
    ensures var f := ExportLevel(objects);
            f.powerUps == [] &&
            |f.platforms| + |f.coins| + |f.enemies| + |Filter(objects, OfKind("speed"))| == |objects|
  {
    if objects != [] {
      var init := objects[..|objects| - 1];
      var o := objects[|objects| - 1];
      assert Placed(init) by {
        forall i | 0 <= i < |init|
          ensures exists t: Tool, x: real, y: real :: init[i] == NewObject(t, x, y)
        {
          assert init[i] == objects[i];
        }
      }
      ExportLosesPowerUps(init);
      var t: Tool, x: real, y: real :| o == NewObject(t, x, y);
      assert o.kind in {"platform", "coin", "enemy", "speed"};
    }
  }
}
