/** The demo's fixed scene: the obstacle record, the four obstacles the
    program creates at start-up and the cursor's constants. */
module Scene {
  import opened Geometry

  /** Fill colours; they only matter for drawing, which is not modelled. */
  datatype Color = Black | Red | Green | Blue | Yellow | Magenta

  /** An obstacle: a filled rectangle placed by its top-left corner, the
      vibration intensity a collision with it asks for, and two fields the
      program stores but never reads (`isBouncy` and the category label). */
  datatype Obstacle = Obstacle(
    size: Vec2,
    position: Vec2,
    fillColor: Color,
    vibrationIntensity: real,
    isBouncy: bool,
    kind: string)

  /** Whether a cursor placed at `cursorPos` collides with obstacle `o`. */
  predicate Hits(cursorPos: Vec2, radius: real, o: Obstacle) {
    CheckCollision(cursorPos, radius, o.position, o.size)
  }

  /** An obstacle the collision test and the haptic conversion handle as
      intended: a rectangle of non-negative size, an intensity in `[0, 1]`. */
  predicate WellFormed(o: Obstacle) {
    o.size.x >= 0.0 && o.size.y >= 0.0 && 0.0 <= o.vibrationIntensity <= 1.0
  }

  const CursorRadius: real := 15.0
  const CursorSpeed: real := 5.0
  const CursorStart: Vec2 := Vec2(400.0, 300.0)

  /** The obstacles in declaration order, which is also the order in which
      collisions are tested. */
  const InitialObstacles: seq<Obstacle> := [
    Obstacle(Vec2(200.0, 50.0), Vec2(300.0, 200.0), Red, 0.7, false, "solid"),
    Obstacle(Vec2(80.0, 80.0), Vec2(500.0, 400.0), Green, 0.5, true, "bouncy"),
    Obstacle(Vec2(120.0, 30.0), Vec2(200.0, 500.0), Yellow, 0.3, false, "weak"),
    Obstacle(Vec2(60.0, 60.0), Vec2(600.0, 100.0), Magenta, 0.9, false, "dangerous")
  ]

  lemma InitialObstaclesWellFormed()
    ensures forall i :: 0 <= i < |InitialObstacles| ==> WellFormed(InitialObstacles[i])
  {
  }
}
