/**
 * Rover commands: moving one cell forward or backward (if the sensors allow
 * it), turning a quarter right or left, and composing commands into a
 * sequence that stops at the first failure.
 */
module Commands {
  import opened Positioning
  import opened Management

  /** The command classes; `Compose` keeps its sub-commands in the order given. */
  datatype Command =
    | MoveForward
    | MoveBackward
    | RotateRight
    | RotateLeft
    | Compose(commands: seq<Command>)

  /** Where the rover stands and where it faces. */
  datatype Pose = Pose(position: Position, direction: Direction)

  /** Whether a command succeeded, and the pose it left the rover in. */
  datatype Outcome = Outcome(ok: bool, pose: Pose)

  /** The direction after a right turn: `(d + 1) % 4`. */
  function TurnRight(d: Direction): (r: Direction)
    ensures Code(r) == (Code(d) + 1) % DIRECTION_NO
    ensures r != d
  {
    FromCode((Code(d) + 1) % DIRECTION_NO)
  }

  /** The direction after a left turn: `(d + 3) % 4`. */
  function TurnLeft(d: Direction): (r: Direction)
    ensures Code(r) == (Code(d) + 3) % DIRECTION_NO
    ensures r != d
  {
    FromCode((Code(d) + 3) % DIRECTION_NO)
  }

  /** Right and left turns undo each other. */
  lemma TurnsInverse(d: Direction)
    ensures TurnLeft(TurnRight(d)) == d && TurnRight(TurnLeft(d)) == d
  {
  }

  /** Four right turns, or four left turns, face the rover the way it started. */
  lemma FourTurns(d: Direction)
    ensures TurnRight(TurnRight(TurnRight(TurnRight(d)))) == d
    ensures TurnLeft(TurnLeft(TurnLeft(TurnLeft(d)))) == d
  {
    match d
    case North => assert TurnRight(North) == East && TurnLeft(North) == West;
    case East => assert TurnRight(East) == South && TurnLeft(East) == North;
    case South => assert TurnRight(South) == West && TurnLeft(South) == East;
    case West => assert TurnRight(West) == North && TurnLeft(West) == South;
  }

  /** An attempt to step onto `target`: made only if every sensor agrees. */
  function StepTo(sensors: seq<Sensor>, pose: Pose, target: Position): (o: Outcome)
    ensures o.ok == AllSafe(sensors, target)
    ensures o.pose.direction == pose.direction
    ensures o.pose.position == if o.ok then target else pose.position
  {
    if AllSafe(sensors, target) then Outcome(true, Pose(target, pose.direction))
    else Outcome(false, pose)
  }

  /** What running a command does, for a rover with the given sensors. */
  function Apply(c: Command, sensors: seq<Sensor>, pose: Pose): Outcome
    decreases c
  {
    match c
    case MoveForward => StepTo(sensors, pose, Plus(pose.position, MoveVector(pose.direction)))
    case MoveBackward => StepTo(sensors, pose, Minus(pose.position, MoveVector(pose.direction)))
    case RotateRight => Outcome(true, Pose(pose.position, TurnRight(pose.direction)))
    case RotateLeft => Outcome(true, Pose(pose.position, TurnLeft(pose.direction)))
    case Compose(cs) => ApplyAll(cs, sensors, pose)
  }

  /** Running `cs` one after another, stopping at the first that fails. */
  function ApplyAll(cs: seq<Command>, sensors: seq<Sensor>, pose: Pose): Outcome
    decreases cs
  {
    if cs == [] then Outcome(true, pose)
    else
      var before := ApplyAll(cs[..|cs| - 1], sensors, pose);
      if !before.ok then before else Apply(cs[|cs| - 1], sensors, before.pose)
  }

  /** Running one more command after `cs`. */
  lemma ApplyAllSnoc(cs: seq<Command>, c: Command, sensors: seq<Sensor>, pose: Pose)
    ensures ApplyAll(cs + [c], sensors, pose) ==
            (var before := ApplyAll(cs, sensors, pose);
             if !before.ok then before else Apply(c, sensors, before.pose))
  {
    assert (cs + [c])[..|cs|] == cs;
  }

  /** Running `a + b` is running `a`, then, if that did not fail, `b`. */
  lemma {:induction false} ApplyAllAppend(a: seq<Command>, b: seq<Command>, sensors: seq<Sensor>, pose: Pose)
    ensures ApplyAll(a + b, sensors, pose) ==
            (var first := ApplyAll(a, sensors, pose);
             if !first.ok then first else ApplyAll(b, sensors, first.pose))
    decreases |b|
  {
    if b == [] {
      assert a + b == a;
    } else {
      var b' := b[..|b| - 1];
      assert (a + b)[..|a + b| - 1] == a + b';
      assert (a + b)[|a + b| - 1] == b[|b| - 1];
      ApplyAllAppend(a, b', sensors, pose);
    }
  }

  /** Once a sub-command fails, the commands after it are never run. */
  lemma ComposeStopsAtFailure(a: seq<Command>, b: seq<Command>, sensors: seq<Sensor>, pose: Pose)
    requires !Apply(Compose(a), sensors, pose).ok
    ensures Apply(Compose(a + b), sensors, pose) == Apply(Compose(a), sensors, pose)
  {
    ApplyAllAppend(a, b, sensors, pose);
  }

  /** Nesting compositions is the same as concatenating them. */
  lemma ComposeFlattens(a: seq<Command>, b: seq<Command>, sensors: seq<Sensor>, pose: Pose)
    ensures Apply(Compose([Compose(a), Compose(b)]), sensors, pose) == Apply(Compose(a + b), sensors, pose)
  {
    assert [] + [Compose(a)] == [Compose(a)];
    assert [Compose(a)] + [Compose(b)] == [Compose(a), Compose(b)];
    ApplyAllSnoc([], Compose(a), sensors, pose);
    ApplyAllSnoc([Compose(a)], Compose(b), sensors, pose);
    ApplyAllAppend(a, b, sensors, pose);
  }

  /** A composition of one command is that command. */
  lemma ComposeSingle(c: Command, sensors: seq<Sensor>, pose: Pose)
    ensures Apply(Compose([c]), sensors, pose) == Apply(c, sensors, pose)
  {
    ApplyAllSnoc([], c, sensors, pose);
  }

  /** Turning right and then left comes back to the start and never fails. */
  lemma RightThenLeft(sensors: seq<Sensor>, pose: Pose)
    ensures Apply(Compose([RotateRight, RotateLeft]), sensors, pose) == Outcome(true, pose)
  {
    ApplyAllSnoc([], RotateRight, sensors, pose);
    ApplyAllSnoc([RotateRight], RotateLeft, sensors, pose);
    TurnsInverse(pose.direction);
  }

  /** Four right turns come back to the start and never fail. */
  lemma FourRights(sensors: seq<Sensor>, pose: Pose)
    ensures Apply(Compose([RotateRight, RotateRight, RotateRight, RotateRight]), sensors, pose) == Outcome(true, pose)
  {
    var r := RotateRight;
    assert [] + [r] == [r] && [r] + [r] == [r, r];
    assert [r, r] + [r] == [r, r, r] && [r, r, r] + [r] == [r, r, r, r];
    ApplyAllSnoc([], RotateRight, sensors, pose);
    ApplyAllSnoc([RotateRight], RotateRight, sensors, pose);
    ApplyAllSnoc([RotateRight, RotateRight], RotateRight, sensors, pose);
    ApplyAllSnoc([RotateRight, RotateRight, RotateRight], RotateRight, sensors, pose);
    FourTurns(pose.direction);
  }

  /** Stepping forward and back, where both cells are safe, returns the rover
      to where it was. */
  lemma ForwardThenBackward(sensors: seq<Sensor>, pose: Pose)
    requires AllSafe(sensors, Plus(pose.position, MoveVector(pose.direction)))
    requires AllSafe(sensors, pose.position)
    ensures Apply(Compose([MoveForward, MoveBackward]), sensors, pose) == Outcome(true, pose)
  {
    ApplyAllSnoc([], MoveForward, sensors, pose);
    ApplyAllSnoc([MoveForward], MoveBackward, sensors, pose);
    PlusMinusCancel(pose.position, MoveVector(pose.direction));
  }

  /** A rover without sensors never fails a command. */
  lemma {:induction false} NoSensorsNeverFail(c: Command, pose: Pose)
    ensures Apply(c, [], pose).ok
    decreases c
  {
    match c
    case Compose(cs) => NoSensorsNeverFailAll(cs, pose);
    case _ =>
  }

  lemma {:induction false} NoSensorsNeverFailAll(cs: seq<Command>, pose: Pose)
    ensures ApplyAll(cs, [], pose).ok
    decreases cs
  {
    if cs != [] {
      NoSensorsNeverFailAll(cs[..|cs| - 1], pose);
      NoSensorsNeverFail(cs[|cs| - 1], ApplyAll(cs[..|cs| - 1], [], pose).pose);
    }
  }

  /** `Command::run`: each command drives the rover through its setters;
      `Compose::run` runs its sub-commands in order and gives up at the first
      failure, keeping what the earlier ones did. */
  method Run(c: Command, rover: RoverManagement) returns (ok: bool)
    modifies rover
    ensures Outcome(ok, Pose(rover.position, rover.direction)) ==
            Apply(c, rover.sensors, old(Pose(rover.position, rover.direction)))
    decreases c
  {
    match c
    case MoveForward =>
      var newPosition := Plus(rover.GetPosition(), MoveVectors[rover.GetDirectionInt()]);
      ok := rover.SetPositionWithCheck(newPosition);
    case MoveBackward =>
      var newPosition := Minus(rover.GetPosition(), MoveVectors[rover.GetDirectionInt()]);
      ok := rover.SetPositionWithCheck(newPosition);
    case RotateRight =>
      var newDirection := FromCode((rover.GetDirectionInt() + 1) % DIRECTION_NO);
      ok := rover.SetDirection(newDirection);
    case RotateLeft =>
      var newDirection := FromCode((rover.GetDirectionInt() + 3) % DIRECTION_NO);
      ok := rover.SetDirection(newDirection);
    case Compose(cs) =>
      for i := 0 to |cs|
        invariant Outcome(true, Pose(rover.position, rover.direction)) ==
                  ApplyAll(cs[..i], rover.sensors, old(Pose(rover.position, rover.direction)))
      {
        assert cs[..i + 1][..i] == cs[..i];
        var done := Run(cs[i], rover);
        if !done {
          assert cs == cs[..i + 1] + cs[i + 1..];
          ApplyAllAppend(cs[..i + 1], cs[i + 1..], rover.sensors, old(Pose(rover.position, rover.direction)));
          return false;
        }
      }
      assert cs[..|cs|] == cs;
      return true;
  }
}
