/**
 * The rover of the first design. The rover itself holds the commands, the
 * sensors, the position, the direction and the `landed` and `stopped`
 * flags; a `RoverManagement` is a handle on one rover through which commands
 * move it. Commands are the same five as in the second design, but they
 * all go through a single `move(position, direction)`.
 */
module RoverV1 {
  import opened Positioning
  import opened Management
  import opened Commands
  import RoverV2
  import Report

  /** `RoverManagement::move`: a target equal to the current position only
      sets the direction and always succeeds; any other target is entered only
      if every sensor accepts it, and then the direction is left as it was. */
  function MoveTo(sensors: seq<Sensor>, pose: Pose, newPosition: Position, newDirection: Direction): (o: Outcome)
    ensures newPosition == pose.position ==> o == Outcome(true, Pose(pose.position, newDirection))
    ensures newPosition != pose.position ==>
              o.ok == AllSafe(sensors, newPosition) &&
              o.pose == (if o.ok then Pose(newPosition, pose.direction) else pose)
  {
    if newPosition == pose.position then Outcome(true, Pose(pose.position, newDirection))
    else if AllSafe(sensors, newPosition) then Outcome(true, Pose(newPosition, pose.direction))
    else Outcome(false, pose)
  }

  /** What running a command does in the first design, where every command
      is a call of `move`. */
  function ApplyV1(c: Command, sensors: seq<Sensor>, pose: Pose): Outcome
    decreases c
  {
    match c
    case MoveForward =>
      MoveTo(sensors, pose, Plus(pose.position, MoveVector(pose.direction)), pose.direction)
    case MoveBackward =>
      MoveTo(sensors, pose, Minus(pose.position, MoveVector(pose.direction)), pose.direction)
    case RotateRight =>
      MoveTo(sensors, pose, pose.position, TurnRight(pose.direction))
    case RotateLeft =>
      MoveTo(sensors, pose, pose.position, TurnLeft(pose.direction))
    case Compose(cs) => ApplyAllV1(cs, sensors, pose)
  }

  function ApplyAllV1(cs: seq<Command>, sensors: seq<Sensor>, pose: Pose): Outcome
    decreases cs
  {
    if cs == [] then Outcome(true, pose)
    else
      var before := ApplyAllV1(cs[..|cs| - 1], sensors, pose);
      if !before.ok then before else ApplyV1(cs[|cs| - 1], sensors, before.pose)
  }

  /** A step forward or backward always leaves the current cell. */
  lemma StepLeaves(p: Position, d: Direction)
    ensures Plus(p, MoveVector(d)) != p && Minus(p, MoveVector(d)) != p
  {
  }

  /** Both designs give every command the same meaning. */
  lemma {:induction false} ApplyV1Agrees(c: Command, sensors: seq<Sensor>, pose: Pose)
    ensures ApplyV1(c, sensors, pose) == Apply(c, sensors, pose)
    decreases c
  {
    match c
    case MoveForward => StepLeaves(pose.position, pose.direction);
    case MoveBackward => StepLeaves(pose.position, pose.direction);
    case RotateRight =>
    case RotateLeft =>
    case Compose(cs) => ApplyAllV1Agrees(cs, sensors, pose);
  }

  lemma {:induction false} ApplyAllV1Agrees(cs: seq<Command>, sensors: seq<Sensor>, pose: Pose)
    ensures ApplyAllV1(cs, sensors, pose) == ApplyAll(cs, sensors, pose)
    decreases cs
  {
    if cs != [] {
      ApplyAllV1Agrees(cs[..|cs| - 1], sensors, pose);
      ApplyV1Agrees(cs[|cs| - 1], sensors, ApplyAll(cs[..|cs| - 1], sensors, pose).pose);
    }
  }

  /** The value `good &= is_safe(...)` leaves after asking the sensors in
      order, starting from `true`. */
  function Conjunction(sensors: seq<Sensor>, p: Position): bool {
    if sensors == [] then true
    else Conjunction(sensors[..|sensors| - 1], p) && sensors[|sensors| - 1](p.x, p.y)
  }

  /** Asking every sensor and stopping at the first refusal give the same
      answer: sensors that are pure functions cannot tell the two apart. */
  lemma {:induction false} ConjunctionIsAllSafe(sensors: seq<Sensor>, p: Position)
    ensures Conjunction(sensors, p) == AllSafe(sensors, p)
    decreases |sensors|
  {
    if sensors != [] {
      var init := sensors[..|sensors| - 1];
      ConjunctionIsAllSafe(init, p);
      assert forall i :: 0 <= i < |init| ==> init[i] == sensors[i];
    }
  }

  /** `Rover` of the first design. */
  class Rover {
    const commands: map<char, Command>
    const sensors: seq<Sensor>
    var position: Position
    var direction: Direction
    var land: bool
    var stop: bool

    /** The rover `RoverBuilder::build` makes: at (0, 0) facing north, not
        landed, not stopped. */
    constructor (commands: map<char, Command>, sensors: seq<Sensor>)
      ensures this.commands == commands && this.sensors == sensors
      ensures position == Position(0, 0) && direction == North
      ensures !land && !stop
    {
      this.commands := commands;
      this.sensors := sensors;
      position := Position(0, 0);
      direction := North;
      land := false;
      stop := false;
    }

    function CurrentPose(): Pose
      reads this
    {
      Pose(position, direction)
    }

    /** `execute`: refuses to run before landing; otherwise clears the stop
        flag and runs the characters of `s` through a `RoverManagement` on
        this rover, stopping at the first character without a command or
        whose command fails. The result is that of the second design. */
    method Execute(s: string) returns (r: RoverV2.ExecResult)
      modifies this
      ensures land == old(land)
      ensures !old(land) ==> r == RoverV2.LogicError(RoverV2.NOT_LANDED) && unchanged(this)
      ensures old(land) ==>
                r == RoverV2.Executed &&
                stop == !RoverV2.Exec(commands, sensors, s, old(CurrentPose())).ok &&
                CurrentPose() == RoverV2.Exec(commands, sensors, s, old(CurrentPose())).pose
    {
      if !land {
        return RoverV2.LogicError(RoverV2.NOT_LANDED);
      }
      var rm := new RoverManagement(this);
      stop := false;
      for i := 0 to |s|
        invariant land && !stop
        invariant RoverV2.Exec(commands, sensors, s[..i], old(CurrentPose())) == Outcome(true, CurrentPose())
      {
        assert s[..i + 1][..i] == s[..i];
        if s[i] !in commands {
          RoverV2.UnboundStops(commands, sensors, s, i, old(CurrentPose()));
          stop := true;
          return RoverV2.Executed;
        }
        ghost var before := CurrentPose();
        var ok := RunV1(commands[s[i]], rm);
        ApplyV1Agrees(commands[s[i]], sensors, before);
        if !ok {
          assert s == s[..i + 1] + s[i + 1..];
          RoverV2.ExecAppend(commands, sensors, s[..i + 1], s[i + 1..], old(CurrentPose()));
          stop := true;
          return RoverV2.Executed;
        }
      }
      assert s[..|s|] == s;
      return RoverV2.Executed;
    }

    /** `land`: puts the rover down at `position` facing `direction`. */
    method Land(position: Position, direction: Direction)
      modifies this
      ensures land && !stop
      ensures this.position == position && this.direction == direction
    {
      land := true;
      stop := false;
      this.position := position;
      this.direction := direction;
    }

    /** What `operator<<` writes for the rover. */
    function Status(): (s: string)
      reads this
      ensures (s == Report.UNKNOWN) == !land
    {
      Report.Status(land, position, direction, stop)
    }
  }

  /** `RoverManagement` of the first design: a handle on one rover. */
  class RoverManagement {
    const rover: Rover

    constructor (rover: Rover)
      ensures this.rover == rover
    {
      this.rover := rover;
    }

    /** `check_position`: asks every sensor, without stopping early, and
        answers the conjunction of their answers, which is the answer of the
        second design's short-circuiting check. */
    method CheckPosition(toCheck: Position) returns (good: bool)
      ensures good == Conjunction(rover.sensors, toCheck)
      ensures good == AllSafe(rover.sensors, toCheck)
    {
      good := true;
      for i := 0 to |rover.sensors|
        invariant good == Conjunction(rover.sensors[..i], toCheck)
      {
        assert rover.sensors[..i + 1][..i] == rover.sensors[..i];
        var safe := rover.sensors[i](toCheck.x, toCheck.y);
        good := good && safe;
      }
      assert rover.sensors[..|rover.sensors|] == rover.sensors;
      ConjunctionIsAllSafe(rover.sensors, toCheck);
    }

    /** `move`, as specified by `MoveTo`; the flags are not touched. */
    method Move(newPosition: Position, newDirection: Direction) returns (ok: bool)
      modifies rover
      ensures Outcome(ok, rover.CurrentPose()) ==
              MoveTo(rover.sensors, old(rover.CurrentPose()), newPosition, newDirection)
      ensures rover.land == old(rover.land) && rover.stop == old(rover.stop)
    {
      if newPosition == rover.position {
        rover.direction := newDirection;
      } else {
        var safe := CheckPosition(newPosition);
        if safe {
          rover.position := newPosition;
        } else {
          return false;
        }
      }
      return true;
    }

    function GetPosition(): Position
      reads rover
    {
      rover.position
    }

    /** `get_direction`: the enum value of the rover's direction. */
    function GetDirection(): (c: int)
      reads rover
      ensures 0 <= c < DIRECTION_NO && FromCode(c) == rover.direction
    {
      Code(rover.direction)
    }
  }

  /** `Command::run` of the first design: every command is one `move`, and
      `Compose::run` runs its sub-commands in order up to the first failure. */
  method RunV1(c: Command, rm: RoverManagement) returns (ok: bool)
    modifies rm.rover
    ensures Outcome(ok, rm.rover.CurrentPose()) ==
            ApplyV1(c, rm.rover.sensors, old(rm.rover.CurrentPose()))
    ensures rm.rover.land == old(rm.rover.land) && rm.rover.stop == old(rm.rover.stop)
    decreases c
  {
    match c
    case MoveForward =>
      var newPosition := Plus(rm.GetPosition(), MoveVectors[rm.GetDirection()]);
      ok := rm.Move(newPosition, FromCode(rm.GetDirection()));
    case MoveBackward =>
      var newPosition := Minus(rm.GetPosition(), MoveVectors[rm.GetDirection()]);
      ok := rm.Move(newPosition, FromCode(rm.GetDirection()));
    case RotateRight =>
      ok := rm.Move(rm.GetPosition(), FromCode((rm.GetDirection() + 1) % DIRECTION_NO));
    case RotateLeft =>
      ok := rm.Move(rm.GetPosition(), FromCode((rm.GetDirection() + 3) % DIRECTION_NO));
    case Compose(cs) =>
      for i := 0 to |cs|
        invariant Outcome(true, rm.rover.CurrentPose()) ==
                  ApplyAllV1(cs[..i], rm.rover.sensors, old(rm.rover.CurrentPose()))
        invariant rm.rover.land == old(rm.rover.land) && rm.rover.stop == old(rm.rover.stop)
      {
        assert cs[..i + 1][..i] == cs[..i];
        var done := RunV1(cs[i], rm);
        if !done {
          ApplyAllV1StopsAtFailure(cs, i + 1, rm.rover.sensors, old(rm.rover.CurrentPose()));
          return false;
        }
      }
      assert cs[..|cs|] == cs;
      return true;
  }

  /** Once a sub-command fails, the sub-commands after it are never run. */
  lemma {:induction false} ApplyAllV1StopsAtFailure(cs: seq<Command>, k: nat, sensors: seq<Sensor>, pose: Pose)
    requires k <= |cs| && !ApplyAllV1(cs[..k], sensors, pose).ok
    ensures ApplyAllV1(cs, sensors, pose) == ApplyAllV1(cs[..k], sensors, pose)
    decreases |cs| - k
  {
    if k < |cs| {
      var k' := k + 1;
      assert cs[..k'][..k] == cs[..k];
      ApplyAllV1StopsAtFailure(cs, k', sensors, pose);
    } else {
      assert cs[..k] == cs;
    }
  }

  /** `RoverBuilder` of the first design. */
  class RoverBuilder {
    var commands: map<char, Command>
    var sensors: seq<Sensor>

    constructor ()
      ensures commands == map[] && sensors == []
    {
      commands := map[];
      sensors := [];
    }

    /** `program_command`: binds `c` to `command`, replacing an earlier binding. */
    method ProgramCommand(c: char, command: Command)
      modifies this
      ensures c in commands && commands[c] == command
      ensures commands == old(commands)[c := command] && sensors == old(sensors)
    {
      commands := commands[c := command];
    }

    /** `add_sensor`: appends a sensor. */
    method AddSensor(sensor: Sensor)
      modifies this
      ensures sensors == old(sensors) + [sensor] && commands == old(commands)
    {
      sensors := sensors + [sensor];
    }

    /** `build`: a fresh rover with the commands and sensors collected so far. */
    method Build() returns (r: Rover)
      ensures fresh(r)
      ensures r.commands == commands && r.sensors == sensors
      ensures r.position == Position(0, 0) && r.direction == North
      ensures !r.land && !r.stop && r.Status() == Report.UNKNOWN
    {
      r := new Rover(commands, sensors);
    }
  }
}
