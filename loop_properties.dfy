/** What the game loop guarantees: how a frame moves the cursor, that a
    collision undoes the move, that the first colliding obstacle decides the
    vibration, that the cursor never comes to rest inside an obstacle, and
    which vibration requests reach the gamepad. */
module LoopProperties {
  import opened Geometry
  import opened Haptics
  import opened Scene
  import opened GameLoop

  // ---------------------------------------------------------------------
  // Movement

  /** Opposite arrow keys held together cancel out on their axis. */
  lemma OppositeKeysCancel(pos: Vec2, held: set<Key>, speed: real)
    ensures Left in held && Right in held ==> Moved(pos, held, speed).x == pos.x
    ensures Up in held && Down in held ==> Moved(pos, held, speed).y == pos.y
  {
  }

  /** Each axis moves by one step at most, and only its own keys move it. */
  lemma AxesAreIndependent(pos: Vec2, held: set<Key>, speed: real)
    ensures Moved(pos, held, speed).x - pos.x in {-speed, 0.0, speed}
    ensures Moved(pos, held, speed).y - pos.y in {-speed, 0.0, speed}
    ensures Moved(pos, held, speed).x == Moved(pos, held * {Left, Right}, speed).x
    ensures Moved(pos, held, speed).y == Moved(pos, held * {Up, Down}, speed).y
  {
  }

  /** A diagonal is not normalised: one key on each axis moves the cursor by
      a full step on both, twice the squared length of a straight step. */
  lemma DiagonalIsNotNormalised(pos: Vec2, horizontal: Key, vertical: Key, speed: real)
    requires horizontal in {Left, Right} && vertical in {Up, Down}
    ensures var d := Moved(pos, {horizontal, vertical}, speed);
            (d.x - pos.x == speed || d.x - pos.x == -speed) &&
            (d.y - pos.y == speed || d.y - pos.y == -speed) &&
            SqDist(d, pos) == 2.0 * speed * speed
    ensures SqDist(Moved(pos, {horizontal}, speed), pos) == speed * speed
  {
  }

  // ---------------------------------------------------------------------
  // One frame

  /** A collision with any obstacle puts the cursor back exactly where the
      frame started; with none, the moved position is kept. */
  lemma StepRevertsOnCollision(cfg: Config, pos: Vec2, input: FrameInput)
    ensures var moved := Moved(pos, input.held, cfg.cursorSpeed);
            var out := Step(cfg, pos, input);
            (out.isColliding <==> exists i :: 0 <= i < |cfg.obstacles| && Hits(moved, cfg.cursorRadius, cfg.obstacles[i])) &&
            (out.isColliding ==> out.position == pos) &&
            (!out.isColliding ==> out.position == moved)
  {
  }

  /** First hit wins: when obstacle `i` is the first to collide, its
      intensity goes to both motors (if the gamepad is connected), whatever
      the later obstacles are. */
  lemma FirstHitWins(cfg: Config, pos: Vec2, input: FrameInput, i: nat)
    requires var moved := Moved(pos, input.held, cfg.cursorSpeed);
             i < |cfg.obstacles| && Hits(moved, cfg.cursorRadius, cfg.obstacles[i]) &&
             forall j :: 0 <= j < i ==> !Hits(moved, cfg.cursorRadius, cfg.obstacles[j])
    ensures var intensity := cfg.obstacles[i].vibrationIntensity;
            Step(cfg, pos, input).command
              == if input.connected then Some(SetVibration(intensity, intensity)) else None
  {
  }

  /** The scan stops at the first hit: replacing every obstacle after it
      changes nothing in the frame. */
  lemma LaterObstaclesNotExamined(cfg: Config, pos: Vec2, input: FrameInput, i: nat, later: seq<Obstacle>)
    requires var moved := Moved(pos, input.held, cfg.cursorSpeed);
             i < |cfg.obstacles| && Hits(moved, cfg.cursorRadius, cfg.obstacles[i]) &&
             forall j :: 0 <= j < i ==> !Hits(moved, cfg.cursorRadius, cfg.obstacles[j])
    ensures Step(cfg, pos, input)
         == Step(cfg.(obstacles := cfg.obstacles[..i + 1] + later), pos, input)
  {
    var cfg' := cfg.(obstacles := cfg.obstacles[..i + 1] + later);
    var moved := Moved(pos, input.held, cfg.cursorSpeed);
    assert forall j :: 0 <= j <= i ==> cfg'.obstacles[j] == cfg.obstacles[j];
    FirstHitWins(cfg, pos, input, i);
    FirstHitWins(cfg', pos, input, i);
  }

  /** What the gamepad is told in one frame: nothing when it is
      disconnected; when connected, always exactly one request, and a stop
      whenever the moved cursor is clear of every obstacle. */
  lemma StepCommand(cfg: Config, pos: Vec2, input: FrameInput)
    ensures var out := Step(cfg, pos, input);
            (!input.connected ==> out.command == None) &&
            (input.connected ==> out.command.Some?) &&
            (input.connected && !out.isColliding ==> out.command == Some(StopVibration()))
  {
  }

  /** The frame that closes the window still moves the cursor, tests the
      obstacles and talks to the gamepad like any other. */
  lemma ClosingFrameRunsToTheEnd(cfg: Config, pos: Vec2, input: FrameInput)
    ensures Step(cfg, pos, input) == Step(cfg, pos, input.(events := [], held := input.held - {Escape}))
  {
  }

  /** The frame invariant: a cursor that starts clear of every obstacle ends
      the frame clear of every obstacle. */
  lemma StepKeepsClear(cfg: Config, pos: Vec2, input: FrameInput)
    requires Clear(pos, cfg.cursorRadius, cfg.obstacles)
    ensures Clear(Step(cfg, pos, input).position, cfg.cursorRadius, cfg.obstacles)
  {
  }

  // ---------------------------------------------------------------------
  // The whole loop

  /** The cursor never rests inside an obstacle, over any number of frames. */
  lemma {:induction false} SimulateKeepsClear(cfg: Config, pos: Vec2, open: bool, frames: seq<FrameInput>)
    requires Clear(pos, cfg.cursorRadius, cfg.obstacles)
    ensures Clear(Simulate(cfg, pos, open, frames).position, cfg.cursorRadius, cfg.obstacles)
    decreases |frames|
  {
    if open && frames != [] {
      StepKeepsClear(cfg, pos, frames[0]);
      SimulateKeepsClear(cfg, Step(cfg, pos, frames[0]).position, !ClosesWindow(frames[0]), frames[1..]);
    }
  }

  /** Once the loop has ended, the last request sent is a stop. */
  lemma {:induction false} ExitEndsWithStop(cfg: Config, pos: Vec2, open: bool, frames: seq<FrameInput>)
    requires !Simulate(cfg, pos, open, frames).open
    ensures var cs := Simulate(cfg, pos, open, frames).commands;
            |cs| > 0 && cs[|cs| - 1] == StopVibration()
    decreases |frames|
  {
    if open && frames != [] {
      var out := Step(cfg, pos, frames[0]);
      ExitEndsWithStop(cfg, out.position, !ClosesWindow(frames[0]), frames[1..]);
    }
  }

  /** A gamepad that is never connected gets nothing during the loop, and
      only the unconditional stop after it. */
  lemma {:induction false} DisconnectedGetsOnlyFinalStop(cfg: Config, pos: Vec2, open: bool, frames: seq<FrameInput>)
    requires forall k :: 0 <= k < |frames| ==> !frames[k].connected
    ensures var run := Simulate(cfg, pos, open, frames);
            run.commands == if run.open then [] else [StopVibration()]
    decreases |frames|
  {
    if open && frames != [] {
      var out := Step(cfg, pos, frames[0]);
      assert out.command == None;
      DisconnectedGetsOnlyFinalStop(cfg, out.position, !ClosesWindow(frames[0]), frames[1..]);
    }
  }

  /** While the window stays open, a connected gamepad gets exactly one
      request per frame. */
  lemma {:induction false} ConnectedGetsOnePerFrame(cfg: Config, pos: Vec2, frames: seq<FrameInput>)
    requires forall k :: 0 <= k < |frames| ==> frames[k].connected && !ClosesWindow(frames[k])
    ensures Simulate(cfg, pos, true, frames).open
    ensures |Simulate(cfg, pos, true, frames).commands| == |frames|
    decreases |frames|
  {
    if frames != [] {
      var out := Step(cfg, pos, frames[0]);
      ConnectedGetsOnePerFrame(cfg, out.position, frames[1..]);
    }
  }

  // ---------------------------------------------------------------------
  // The demo's own scene

  /** The cursor starts clear of the four obstacles. */
  lemma InitialCursorIsClear()
    ensures Clear(CursorStart, CursorRadius, InitialObstacles)
  {
  }

  /** Every cursor position the demo ever reaches is clear of its obstacles. */
  lemma DemoNeverRestsInsideAnObstacle(frames: seq<FrameInput>)
    ensures Clear(Simulate(Initial, CursorStart, true, frames).position, CursorRadius, InitialObstacles)
  {
    InitialCursorIsClear();
    SimulateKeepsClear(Initial, CursorStart, true, frames);
  }

  function HoldingUp(connected: bool): FrameInput {
    FrameInput([], {Up}, connected)
  }

  /** One frame of holding Up, straight below the solid wall: the cursor
      rises by one step until the step would bring its circle within one
      radius of the wall's bottom edge (y = 250); then the move is undone and
      a connected gamepad is asked for the wall's intensity. */
  lemma UpFrameBelowWall(y: real, connected: bool)
    requires 250.0 < y <= 300.0
    ensures var out := Step(Initial, Vec2(400.0, y), HoldingUp(connected));
            out.position == (if y <= 255.0 then Vec2(400.0, y) else Vec2(400.0, y - 5.0)) &&
            (y <= 255.0 && connected ==> out.command == Some(SetVibration(0.7, 0.7)))
  {
    var o := InitialObstacles;
    var moved := Vec2(400.0, y - 5.0);
    assert Moved(Vec2(400.0, y), {Up}, CursorSpeed) == moved;
    BelowBottomEdge(moved, CursorRadius, o[0].position, o[0].size);
    SeparatedOnAxis(moved, CursorRadius, o[1].position, o[1].size);
    SeparatedOnAxis(moved, CursorRadius, o[2].position, o[2].size);
    SeparatedOnAxis(moved, CursorRadius, o[3].position, o[3].size);
    if y <= 255.0 {
      FirstHitWins(Initial, Vec2(400.0, y), HoldingUp(connected), 0);
    } else {
      assert Clear(moved, CursorRadius, o);
    }
  }

  function MinNat(a: nat, b: nat): nat { if a <= b then a else b }

  /** The cursor's position after `m` steps up from the start. */
  function Climbed(m: nat): Vec2 {
    Vec2(400.0, 300.0 - 5.0 * m as real)
  }

  /** A frame that leaves the window open and ends at `next` hands `next`
      on to the rest of the run. */
  lemma OpenFrameHandsOn(cfg: Config, pos: Vec2, frames: seq<FrameInput>, next: Vec2)
    requires frames != [] && !ClosesWindow(frames[0])
    requires Step(cfg, pos, frames[0]).position == next
    ensures Simulate(cfg, pos, true, frames).position == Simulate(cfg, next, true, frames[1..]).position
    ensures Simulate(cfg, pos, true, frames).open == Simulate(cfg, next, true, frames[1..]).open
  {
  }

  /** The climb, for any configuration in which one frame of holding Up
      from `Climbed(j)` ends at `Climbed(j + 1)` below nine steps and stays
      put at nine. */
  lemma {:induction false} Climb(cfg: Config, m: nat, n: nat, connected: bool)
    requires m <= 9
    requires forall j: nat :: j <= 9 ==>
               Step(cfg, Climbed(j), HoldingUp(connected)).position == Climbed(if j == 9 then 9 else j + 1)
    ensures var run := Simulate(cfg, Climbed(m), true, seq(n, _ => HoldingUp(connected)));
            run.open && run.position == Climbed(MinNat(m + n, 9))
    decreases n
  {
    var frames := seq(n, _ => HoldingUp(connected));
    if n > 0 {
      var next: nat := if m == 9 then 9 else m + 1;
      assert frames[0] == HoldingUp(connected);
      assert frames[1..] == seq(n - 1, _ => HoldingUp(connected));
      OpenFrameHandsOn(cfg, Climbed(m), frames, Climbed(next));
      Climb(cfg, next, n - 1, connected);
      assert MinNat(next + (n - 1), 9) == MinNat(m + n, 9);
    }
  }

  /** Holding Up from the start: the cursor climbs one step per frame for
      nine frames, reaches y = 255 (its centre 20 and its top edge 5 below the
      wall's bottom edge) and stays there; the tenth step would touch the wall tangentially, which counts
      as a collision. */
  lemma HoldingUpStopsBelowWall(n: nat, connected: bool)
    ensures var run := Simulate(Initial, CursorStart, true, seq(n, _ => HoldingUp(connected)));
            run.open && run.position == Vec2(400.0, 300.0 - 5.0 * MinNat(n, 9) as real)
  {
    forall j: nat | j <= 9
      ensures Step(Initial, Climbed(j), HoldingUp(connected)).position == Climbed(if j == 9 then 9 else j + 1)
    {
      UpFrameBelowWall(300.0 - 5.0 * j as real, connected);
    }
    assert Climbed(0) == CursorStart;
    Climb(Initial, 0, n, connected);
  }
}
