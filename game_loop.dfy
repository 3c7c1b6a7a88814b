/** The game loop: per frame, read the input, move the cursor tentatively,
    test it against the obstacles in declaration order, undo the move on the
    first hit, and tell the gamepad what to do. When the loop ends, one last
    stop-vibration request is sent.

    The window, keyboard and gamepad are inputs: each frame's pending window
    events, the set of keys held down and whether the gamepad answers. The
    program asks the gamepad for its connection at most once per frame (on a
    hit before vibrating, otherwise before stopping), so one flag per frame
    is exact. Vibration requests are emitted as values rather than sent. */
module GameLoop {
  import opened Geometry
  import opened Haptics
  import opened Scene

  datatype Option<T> = None | Some(value: T)

  datatype Key = Left | Right | Up | Down | Escape

  datatype Event = Closed | OtherEvent

  /** What one frame observes: the window events polled at its start, the
      keys held down, and whether the gamepad is connected. */
  datatype FrameInput = FrameInput(events: seq<Event>, held: set<Key>, connected: bool)

  /** The fixed parameters of a run. */
  datatype Config = Config(cursorRadius: real, cursorSpeed: real, obstacles: seq<Obstacle>)

  /** The configuration the program sets up before its loop. */
  const Initial: Config := Config(CursorRadius, CursorSpeed, InitialObstacles)

  /** What one frame decides: the cursor's position at its end, whether the
      moved cursor hit an obstacle, and the vibration request sent, if any. */
  datatype FrameOutcome = FrameOutcome(position: Vec2, isColliding: bool, command: Option<HapticCommand>)

  /** Where a run of frames leaves the cursor and the window, and every
      vibration request sent, in order. */
  datatype RunOutcome = RunOutcome(position: Vec2, open: bool, commands: seq<HapticCommand>)

  // ---------------------------------------------------------------------
  // Specification of one frame

  /** The net step along one axis when its forward and backward keys are
      held or not. */
  function AxisStep(forward: bool, backward: bool, speed: real): real {
    (if forward then speed else 0.0) - (if backward then speed else 0.0)
  }

  /** The tentatively moved position: each held arrow key adds its own step. */
  function Moved(pos: Vec2, held: set<Key>, speed: real): Vec2 {
    Vec2(pos.x + AxisStep(Right in held, Left in held, speed),
         pos.y + AxisStep(Down in held, Up in held, speed))
  }

  /** No obstacle collides with a cursor placed at `pos`. */
  predicate Clear(pos: Vec2, radius: real, obstacles: seq<Obstacle>) {
    forall i :: 0 <= i < |obstacles| ==> !Hits(pos, radius, obstacles[i])
  }

  /** The lowest index, from `k` on, of an obstacle that collides. */
  function FirstCollisionFrom(pos: Vec2, radius: real, obstacles: seq<Obstacle>, k: nat): (r: Option<nat>)
    requires k <= |obstacles|
    ensures r.Some? ==> k <= r.value < |obstacles| && Hits(pos, radius, obstacles[r.value])
    ensures r.Some? ==> forall j :: k <= j < r.value ==> !Hits(pos, radius, obstacles[j])
    ensures r.None? ==> forall j :: k <= j < |obstacles| ==> !Hits(pos, radius, obstacles[j])
    decreases |obstacles| - k
  {
    if k == |obstacles| then None
    else if Hits(pos, radius, obstacles[k]) then Some(k)
    else FirstCollisionFrom(pos, radius, obstacles, k + 1)
  }

  /** The obstacle the scan stops at: the first one in declaration order
      that collides, if any does. */
  function FirstCollision(pos: Vec2, radius: real, obstacles: seq<Obstacle>): (r: Option<nat>)
    ensures r.None? <==> Clear(pos, radius, obstacles)
    ensures r.Some? ==> r.value < |obstacles| && Hits(pos, radius, obstacles[r.value])
    ensures r.Some? ==> forall j :: 0 <= j < r.value ==> !Hits(pos, radius, obstacles[j])
  {
    FirstCollisionFrom(pos, radius, obstacles, 0)
  }

  /** One frame, as a function of the position at its start. */
  function Step(cfg: Config, pos: Vec2, input: FrameInput): FrameOutcome {
    var moved := Moved(pos, input.held, cfg.cursorSpeed);
    match FirstCollision(moved, cfg.cursorRadius, cfg.obstacles)
    case Some(i) =>
      var intensity := cfg.obstacles[i].vibrationIntensity;
      FrameOutcome(pos, true, if input.connected then Some(SetVibration(intensity, intensity)) else None)
    case None =>
      FrameOutcome(moved, false, if input.connected then Some(StopVibration()) else None)
  }

  /** Whether the frame closes the window: a close event or Escape held. The
      frame that closes the window still runs to its end. */
  predicate ClosesWindow(input: FrameInput) {
    Closed in input.events || Escape in input.held
  }

  function Issued(command: Option<HapticCommand>): seq<HapticCommand> {
    match command
    case Some(c) => [c]
    case None => []
  }

  /** The loop over frames: frames run while the window is open; once it is
      closed, the final stop request follows. If the inputs run out first,
      the program is still running and nothing more is sent. */
  function Simulate(cfg: Config, pos: Vec2, open: bool, frames: seq<FrameInput>): RunOutcome
    decreases |frames|
  {
    if !open then RunOutcome(pos, false, [StopVibration()])
    else if frames == [] then RunOutcome(pos, true, [])
    else
      var out := Step(cfg, pos, frames[0]);
      var rest := Simulate(cfg, out.position, !ClosesWindow(frames[0]), frames[1..]);
      RunOutcome(rest.position, rest.open, Issued(out.command) + rest.commands)
  }

  /** Running frame `k` of an open run moves the run's remainder on by one
      frame and appends that frame's request, if any, to what was sent. */
  lemma SimulateAdvance(cfg: Config, pos: Vec2, frames: seq<FrameInput>, k: nat,
                        sent: seq<HapticCommand>, whole: RunOutcome)
    requires k < |frames|
    requires Simulate(cfg, pos, true, frames[k..]).position == whole.position
    requires Simulate(cfg, pos, true, frames[k..]).open == whole.open
    requires sent + Simulate(cfg, pos, true, frames[k..]).commands == whole.commands
    ensures var out := Step(cfg, pos, frames[k]);
            var rest := Simulate(cfg, out.position, !ClosesWindow(frames[k]), frames[k + 1..]);
            rest.position == whole.position && rest.open == whole.open &&
            (sent + Issued(out.command)) + rest.commands == whole.commands
  {
    assert frames[k..][0] == frames[k];
    assert frames[k..][1..] == frames[k + 1..];
    var out := Step(cfg, pos, frames[k]);
    var rest := Simulate(cfg, out.position, !ClosesWindow(frames[k]), frames[k + 1..]);
    assert sent + (Issued(out.command) + rest.commands) == (sent + Issued(out.command)) + rest.commands;
  }

  /** A run whose window is closed, or whose frames are used up, has
      nothing left to do but the final stop, if the window is closed. */
  lemma SimulateFinish(cfg: Config, pos: Vec2, open: bool, frames: seq<FrameInput>, k: nat,
                       sent: seq<HapticCommand>, whole: RunOutcome)
    requires k <= |frames| && (!open || k == |frames|)
    requires Simulate(cfg, pos, open, frames[k..]).position == whole.position
    requires Simulate(cfg, pos, open, frames[k..]).open == whole.open
    requires sent + Simulate(cfg, pos, open, frames[k..]).commands == whole.commands
    ensures pos == whole.position && open == whole.open
    ensures whole.commands == if open then sent else sent + [StopVibration()]
  {
  }

  // ---------------------------------------------------------------------
  // The program's state and its loops

  /** The circle cursor: its position (top-left of its bounding box) changes
      in place; its radius is fixed. */
  class Cursor {
    var position: Vec2
    const radius: real

    constructor (radius: real, position: Vec2)
      ensures this.radius == radius && this.position == position
    {
      this.radius := radius;
      this.position := position;
    }

    method Move(offset: Vec2)
      modifies this
      ensures position == old(position).Plus(offset)
    {
      position := position.Plus(offset);
    }

    method SetPosition(p: Vec2)
      modifies this
      ensures position == p
    {
      position := p;
    }
  }

  /** The state `main` keeps across frames. The obstacle list is a constant:
      nothing changes it once the loop starts. */
  class Game {
    const cursor: Cursor
    const cursorSpeed: real
    const obstacles: seq<Obstacle>
    var windowOpen: bool

    function Settings(): Config {
      Config(cursor.radius, cursorSpeed, obstacles)
    }

    /** The set-up before the loop: an open window, the cursor at its start
        and the four obstacles. */
    constructor ()
      ensures fresh(cursor) && windowOpen
      ensures cursor.position == CursorStart && Settings() == Initial
    {
      cursor := new Cursor(CursorRadius, CursorStart);
      cursorSpeed := CursorSpeed;
      obstacles := InitialObstacles;
      windowOpen := true;
    }

    /** Drains the frame's pending events; a close event closes the window. */
    method PollEvents(events: seq<Event>)
      modifies this
      ensures windowOpen == (old(windowOpen) && Closed !in events)
    {
      for i := 0 to |events|
        invariant windowOpen == (old(windowOpen) && Closed !in events[..i])
      {
        if events[i] == Closed {
          windowOpen := false;
        }
      }
      assert events[..|events|] == events;
    }

    /** The keyboard handler: each held arrow key moves the cursor by one
        step along its axis; Escape closes the window. */
    method HandleKeys(held: set<Key>)
      modifies this, cursor
      ensures cursor.position == Moved(old(cursor.position), held, cursorSpeed)
      ensures windowOpen == (old(windowOpen) && Escape !in held)
    {
      if Left in held {
        cursor.Move(Vec2(-cursorSpeed, 0.0));
      }
      if Right in held {
        cursor.Move(Vec2(cursorSpeed, 0.0));
      }
      if Up in held {
        cursor.Move(Vec2(0.0, -cursorSpeed));
      }
      if Down in held {
        cursor.Move(Vec2(0.0, cursorSpeed));
      }
      if Escape in held {
        windowOpen := false;
      }
    }

    /** The collision pass: scan the obstacles in order; on the first hit,
        ask for vibration at its intensity (if the gamepad is connected), put
        the cursor back at `previousPosition` and stop scanning. With no hit,
        a connected gamepad is told to stop. */
    method CollisionPass(previousPosition: Vec2, connected: bool) returns (command: Option<HapticCommand>)
      modifies cursor
      ensures var moved := old(cursor.position);
              match FirstCollision(moved, cursor.radius, obstacles)
              case Some(i) =>
                var intensity := obstacles[i].vibrationIntensity;
                cursor.position == previousPosition &&
                command == if connected then Some(SetVibration(intensity, intensity)) else None
              case None =>
                cursor.position == moved && command == if connected then Some(StopVibration()) else None
    {
      ghost var moved := cursor.position;
      var isColliding := false;
      command := None;
      var i := 0;
      while i < |obstacles|
        invariant 0 <= i <= |obstacles|
        invariant !isColliding && command == None && cursor.position == moved
        invariant forall j :: 0 <= j < i ==> !Hits(moved, cursor.radius, obstacles[j])
      {
        var obstacle := obstacles[i];
        if CheckCollision(cursor.position, cursor.radius, obstacle.position, obstacle.size) {
          isColliding := true;
          if connected {
            command := Some(SetVibration(obstacle.vibrationIntensity, obstacle.vibrationIntensity));
          }
          cursor.SetPosition(previousPosition);
          assert FirstCollision(moved, cursor.radius, obstacles) == Some(i);
          break;
        }
        i := i + 1;
      }

      if !isColliding && connected {
        command := Some(StopVibration());
      }
    }

    /** One pass of the loop body (without drawing). */
    method Frame(input: FrameInput) returns (command: Option<HapticCommand>)
      modifies this, cursor
      ensures cursor.position == Step(Settings(), old(cursor.position), input).position
      ensures command == Step(Settings(), old(cursor.position), input).command
      ensures windowOpen == (old(windowOpen) && !ClosesWindow(input))
    {
      PollEvents(input.events);
      var previousPosition := cursor.position;
      HandleKeys(input.held);
      command := CollisionPass(previousPosition, input.connected);
    }

    /** The loop `while the window is open`, over the given frames, and the
        stop request sent once it has ended. */
    method Run(frames: seq<FrameInput>) returns (commands: seq<HapticCommand>)
      modifies this, cursor
      ensures cursor.position == Simulate(Settings(), old(cursor.position), old(windowOpen), frames).position
      ensures windowOpen == Simulate(Settings(), old(cursor.position), old(windowOpen), frames).open
      ensures commands == Simulate(Settings(), old(cursor.position), old(windowOpen), frames).commands
    {
      ghost var whole := Simulate(Settings(), cursor.position, windowOpen, frames);
      commands := [];
      var k := 0;
      while windowOpen && k < |frames|
        invariant 0 <= k <= |frames|
        invariant Simulate(Settings(), cursor.position, windowOpen, frames[k..]).position == whole.position
        invariant Simulate(Settings(), cursor.position, windowOpen, frames[k..]).open == whole.open
        invariant commands + Simulate(Settings(), cursor.position, windowOpen, frames[k..]).commands == whole.commands
      {
        SimulateAdvance(Settings(), cursor.position, frames, k, commands, whole);
        var command := Frame(frames[k]);
        commands := commands + Issued(command);
        k := k + 1;
      }
      SimulateFinish(Settings(), cursor.position, windowOpen, frames, k, commands, whole);
      if !windowOpen {
        commands := commands + [StopVibration()];
      }
    }
  }
}
