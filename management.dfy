/**
 * The rover's position keeper: it holds the sensors, the current position
 * and the current direction, and moves the rover only to cells that every
 * sensor reports safe.
 */
module Management {
  import opened Positioning

  /** A sensor's `is_safe(x, y)`: whether the rover may enter cell (x, y). */
  type Sensor = (int, int) -> bool

  /** Every sensor reports cell `p` safe (vacuously so without sensors). */
  predicate AllSafe(sensors: seq<Sensor>, p: Position) {
    forall i :: 0 <= i < |sensors| ==> sensors[i](p.x, p.y)
  }

  /** `RoverManagement` of the second design. */
  class RoverManagement {
    const sensors: seq<Sensor>
    var position: Position
    var direction: Direction

    /** Stores the sensors; the rover starts at (0, 0) facing north. */
    constructor (sensors: seq<Sensor>)
      ensures this.sensors == sensors
      ensures position == Position(0, 0) && direction == North
    {
      this.sensors := sensors;
      position := Position(0, 0);
      direction := North;
    }

    /** `check_position`: asks the sensors in order and answers false at the
        first one that reports the cell unsafe. */
    method CheckPosition(toCheck: Position) returns (safe: bool)
      ensures safe == AllSafe(sensors, toCheck)
      ensures !safe ==> exists i :: 0 <= i < |sensors| && !sensors[i](toCheck.x, toCheck.y)
    {
      for i := 0 to |sensors|
        invariant forall k :: 0 <= k < i ==> sensors[k](toCheck.x, toCheck.y)
      {
        if !sensors[i](toCheck.x, toCheck.y) {
          return false;
        }
      }
      return true;
    }

    function GetPosition(): Position
      reads this
    {
      position
    }

    /** `get_direction_int`: the enum value of the direction. */
    function GetDirectionInt(): (c: int)
      reads this
      ensures 0 <= c < DIRECTION_NO && FromCode(c) == direction
    {
      Code(direction)
    }

    /** `set_position`: moves without asking the sensors. */
    method SetPosition(newPosition: Position)
      modifies this
      ensures position == newPosition && direction == old(direction)
    {
      position := newPosition;
    }

    /** `set_position_with_check`: moves only to a cell every sensor accepts;
        the direction never changes. */
    method SetPositionWithCheck(newPosition: Position) returns (ok: bool)
      modifies this
      ensures ok == AllSafe(sensors, newPosition)
      ensures position == (if ok then newPosition else old(position))
      ensures direction == old(direction)
    {
      var safe := CheckPosition(newPosition);
      if !safe {
        return false;
      }
      position := newPosition;
      return true;
    }

    /** `set_direction`: turns and always succeeds. */
    method SetDirection(newDirection: Direction) returns (ok: bool)
      modifies this
      ensures ok
      ensures direction == newDirection && position == old(position)
    {
      direction := newDirection;
      return true;
    }
  }
}
