/**
 * The position object of the first design: a mutable pair of coordinates
 * with in-place `+=` and `-=`, and `+` and `-` that work on a copy.
 */
module PositionObject {
  import P = Positioning

  class Position {
    var x: int
    var y: int

    constructor (x: int, y: int)
      ensures this.x == x && this.y == y
    {
      this.x := x;
      this.y := y;
    }

    /** The coordinates as a value. */
    function Value(): P.Position
      reads this
    {
      P.Position(x, y)
    }

    /** `operator+=`: adds `rhs` componentwise, in place, and returns this
        very object; `rhs` may be this very object too. */
    method AddAssign(rhs: Position) returns (r: Position)
      modifies this
      ensures r == this
      ensures Value() == P.Plus(old(Value()), old(rhs.Value()))
    {
      x := x + rhs.x;
      y := y + rhs.y;
      return this;
    }

    /** `operator-=`: subtracts `rhs` componentwise, in place, and returns
        this very object; `rhs` may be this very object too. */
    method SubAssign(rhs: Position) returns (r: Position)
      modifies this
      ensures r == this
      ensures Value() == P.Minus(old(Value()), old(rhs.Value()))
    {
      x := x - rhs.x;
      y := y - rhs.y;
      return this;
    }

    /** `operator+`: `+=` applied to a copy; neither operand changes. */
    method Plus(rhs: Position) returns (r: Position)
      ensures fresh(r) && r.Value() == P.Plus(Value(), rhs.Value())
    {
      var copy := new Position(x, y);
      r := copy.AddAssign(rhs);
    }

    /** `operator-`: `-=` applied to a copy; neither operand changes. */
    method Minus(rhs: Position) returns (r: Position)
      ensures fresh(r) && r.Value() == P.Minus(Value(), rhs.Value())
    {
      var copy := new Position(x, y);
      r := copy.SubAssign(rhs);
    }
  }

  /** `p += q` followed by `p -= q` restores `p`, unless `q` is `p` itself:
      then the second step subtracts the doubled value and leaves (0, 0). */
  method AddThenSubtract(p: Position, q: Position)
    modifies p
    ensures p != q ==> p.Value() == old(p.Value()) && q.Value() == old(q.Value())
    ensures p == q ==> p.Value() == P.Position(0, 0)
  {
    var _ := p.AddAssign(q);
    var _ := p.SubAssign(q);
  }
}
