/**
 * The rover of the second design: a table from command characters to
 * commands, the `landed` and `stopped` flags, and a position keeper that
 * owns the sensors, the position and the direction. A builder programs the
 * commands and collects the sensors.
 */
module RoverV2 {
  import opened Positioning
  import opened Management
  import opened Commands
  import Report

  /** What `execute` reports: normal completion, or the `std::logic_error`
      it throws. */
  datatype ExecResult = Executed | LogicError(message: string)

  const NOT_LANDED: string := "Rover has not landed."

  /** Executing the command string `s` from `pose`: characters are run in
      order; the first one without a command, or whose command fails, stops
      the rover where it then stands. */
  function Exec(commands: map<char, Command>, sensors: seq<Sensor>, s: string, pose: Pose): Outcome
  {
    if s == [] then Outcome(true, pose)
    else
      var before := Exec(commands, sensors, s[..|s| - 1], pose);
      if !before.ok then before
      else if s[|s| - 1] !in commands then Outcome(false, before.pose)
      else Apply(commands[s[|s| - 1]], sensors, before.pose)
  }

  /** Executing `s + t` is executing `s`, then, unless the rover stopped,
      `t` from where `s` left it. */
  lemma {:induction false} ExecAppend(commands: map<char, Command>, sensors: seq<Sensor>, s: string, t: string, pose: Pose)
    ensures Exec(commands, sensors, s + t, pose) ==
            (var first := Exec(commands, sensors, s, pose);
             if !first.ok then first else Exec(commands, sensors, t, first.pose))
    decreases |t|
  {
    if t == [] {
      assert s + t == s;
    } else {
      var t' := t[..|t| - 1];
      assert (s + t)[..|s + t| - 1] == s + t';
      assert (s + t)[|s + t| - 1] == t[|t| - 1];
      ExecAppend(commands, sensors, s, t', pose);
    }
  }

  /** A character without a command stops the rover: nothing after it runs. */
  lemma UnboundStops(commands: map<char, Command>, sensors: seq<Sensor>, s: string, i: nat, pose: Pose)
    requires i < |s| && s[i] !in commands
    ensures !Exec(commands, sensors, s, pose).ok
    ensures Exec(commands, sensors, s, pose) == Exec(commands, sensors, s[..i + 1], pose)
  {
    assert s == s[..i + 1] + s[i + 1..];
    ExecAppend(commands, sensors, s[..i + 1], s[i + 1..], pose);
    assert s[..i + 1][..i] == s[..i];
  }

  /** The commands bound to the characters of `s`, in order. */
  function BoundCommands(commands: map<char, Command>, s: string): (cs: seq<Command>)
    requires forall i :: 0 <= i < |s| ==> s[i] in commands
    ensures |cs| == |s|
    ensures forall i :: 0 <= i < |s| ==> cs[i] == commands[s[i]]
  {
    if s == [] then [] else BoundCommands(commands, s[..|s| - 1]) + [commands[s[|s| - 1]]]
  }

  /** When every character has a command, executing the string is running
      the composition of those commands. */
  lemma {:induction false} ExecIsCompose(commands: map<char, Command>, sensors: seq<Sensor>, s: string, pose: Pose)
    requires forall i :: 0 <= i < |s| ==> s[i] in commands
    ensures Exec(commands, sensors, s, pose) == Apply(Compose(BoundCommands(commands, s)), sensors, pose)
    decreases |s|
  {
    if s != [] {
      var s' := s[..|s| - 1];
      ExecIsCompose(commands, sensors, s', pose);
      ApplyAllSnoc(BoundCommands(commands, s'), commands[s[|s| - 1]], sensors, pose);
    }
  }

  /** A rover without sensors stops only at a character without a command. */
  lemma NoSensorsRunsThrough(commands: map<char, Command>, s: string, pose: Pose)
    requires forall i :: 0 <= i < |s| ==> s[i] in commands
    ensures Exec(commands, [], s, pose).ok
  {
    ExecIsCompose(commands, [], s, pose);
    NoSensorsNeverFail(Compose(BoundCommands(commands, s)), pose);
  }

  /** `Rover` of the second design. */
  class Rover {
    const commands: map<char, Command>
    var hasLanded: bool
    var hasStopped: bool
    const management: RoverManagement

    /** The rover `RoverBuilder::build` makes: not landed, not stopped. */
    constructor (commands: map<char, Command>, sensors: seq<Sensor>)
      ensures this.commands == commands && fresh(management) && management.sensors == sensors
      ensures !hasLanded && !hasStopped
      ensures management.position == Position(0, 0) && management.direction == North
    {
      this.commands := commands;
      hasLanded := false;
      hasStopped := false;
      management := new RoverManagement(sensors);
    }

    function CurrentPose(): Pose
      reads this, management
    {
      Pose(management.position, management.direction)
    }

    /** `execute`: refuses to run before landing; otherwise clears the stop
        flag and runs the characters of `s` in order, setting the stop flag
        and returning at the first character without a command or whose
        command fails. */
    method Execute(s: string) returns (r: ExecResult)
      modifies this, management
      ensures hasLanded == old(hasLanded)
      ensures !old(hasLanded) ==> r == LogicError(NOT_LANDED) && unchanged(this, management)
      ensures old(hasLanded) ==>
                r == Executed &&
                hasStopped == !Exec(commands, management.sensors, s, old(CurrentPose())).ok &&
                CurrentPose() == Exec(commands, management.sensors, s, old(CurrentPose())).pose
    {
      if !hasLanded {
        return LogicError(NOT_LANDED);
      }
      hasStopped := false;
      for i := 0 to |s|
        invariant hasLanded && !hasStopped
        invariant Exec(commands, management.sensors, s[..i], old(CurrentPose())) == Outcome(true, CurrentPose())
      {
        assert s[..i + 1][..i] == s[..i];
        if s[i] !in commands {
          UnboundStops(commands, management.sensors, s, i, old(CurrentPose()));
          hasStopped := true;
          return Executed;
        }
        var ok := Run(commands[s[i]], management);
        if !ok {
          assert s == s[..i + 1] + s[i + 1..];
          ExecAppend(commands, management.sensors, s[..i + 1], s[i + 1..], old(CurrentPose()));
          hasStopped := true;
          return Executed;
        }
      }
      assert s[..|s|] == s;
      return Executed;
    }

    /** `land`: puts the rover down at `position` facing `direction`. */
    method Land(position: Position, direction: Direction)
      modifies this, management
      ensures hasLanded && !hasStopped
      ensures management.position == position && management.direction == direction
    {
      hasLanded := true;
      hasStopped := false;
      management.SetPosition(position);
      var _ := management.SetDirection(direction);
    }

    /** What `operator<<` writes for the rover. */
    function Status(): (s: string)
      reads this, management
      ensures (s == Report.UNKNOWN) == !hasLanded
    {
      Report.Status(hasLanded, management.GetPosition(), FromCode(management.GetDirectionInt()), hasStopped)
    }
  }

  /** `RoverBuilder` of the second design. */
  class RoverBuilder {
    var commands: map<char, Command>
    var sensors: seq<Sensor>

    constructor ()
      ensures commands == map[] && sensors == []
    {
      commands := map[];
      sensors := [];
    }

    /** `program_command`: binds `c` to `command`, replacing an earlier binding. */
    method ProgramCommand(c: char, command: Command)
      modifies this
      ensures c in commands && commands[c] == command
      ensures forall other :: other != c ==>
                (other in commands <==> other in old(commands)) &&
                (other in commands ==> commands[other] == old(commands)[other])
      ensures commands == old(commands)[c := command] && sensors == old(sensors)
    {
      commands := commands[c := command];
    }

    /** `add_sensor`: appends a sensor. */
    method AddSensor(sensor: Sensor)
      modifies this
      ensures sensors == old(sensors) + [sensor] && commands == old(commands)
    {
      sensors := sensors + [sensor];
    }

    /** `build`: a fresh rover with the commands and sensors collected so far. */
    method Build() returns (r: Rover)
      ensures fresh(r) && fresh(r.management)
      ensures r.commands == commands && r.management.sensors == sensors
      ensures !r.hasLanded && !r.hasStopped && r.Status() == Report.UNKNOWN
      ensures r.management.position == Position(0, 0) && r.management.direction == North
    {
      r := new Rover(commands, sensors);
    }
  }
}
