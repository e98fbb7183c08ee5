/**
 * The status text a rover writes to a stream: "unknown" before it has
 * landed, otherwise its position, a space, the name of its direction, and
 * " stopped" when its last command string was cut short.
 */
module Report {
  import opened Positioning

  const UNKNOWN: string := "unknown"
  const STOPPED: string := " stopped"

  /** The status text of a rover in the given state. */
  function Status(landed: bool, position: Position, direction: Direction, stopped: bool): (s: string)
    ensures (s == UNKNOWN) == !landed
    ensures landed ==> |s| > 0 && s[0] == '('
  {
    if !landed then UNKNOWN
    else Text(position) + " " + Name(direction) + Suffix(stopped)
  }

  /** The status text of a landed rover determines its position, its
      direction and whether it has stopped. */
  lemma StatusInjective(p1: Position, d1: Direction, st1: bool, p2: Position, d2: Direction, st2: bool)
    requires Status(true, p1, d1, st1) == Status(true, p2, d2, st2)
    ensures p1 == p2 && d1 == d2 && st1 == st2
  {
    StatusShape(p1, d1, st1);
    StatusShape(p2, d2, st2);
    RestSplit(Opening(p1), Name(d1), Suffix(st1), Opening(p2), Name(d2), Suffix(st2));
    assert Text(p1) == Opening(p1) + ")" && Text(p2) == Opening(p2) + ")";
    TextInjective(p1, p2);
    NameInjective(d1, d2);
  }

  /** A text `o + ") " + n + x`, with no ')' in `o`, no space in `n` and `x`
      empty or beginning with a space, determines `o`, `n` and `x`. */
  lemma RestSplit(o1: string, n1: string, x1: string, o2: string, n2: string, x2: string)
    requires ')' !in o1 && ')' !in o2 && ' ' !in n1 && ' ' !in n2
    requires x1 == [] || x1[0] == ' '
    requires x2 == [] || x2[0] == ' '
    requires o1 + (") " + n1 + x1) == o2 + (") " + n2 + x2)
    ensures o1 == o2 && n1 == n2 && x1 == x2
  {
    var r1, r2 := ") " + n1 + x1, ") " + n2 + x2;
    SplitAt(o1, r1, o2, r2, ')');
    assert r1[2..] == n1 + x1 && r2[2..] == n2 + x2;
    SplitAt(n1, x1, n2, x2, ' ');
  }

  /** " stopped" for a rover whose last command string was cut short. */
  function Suffix(stopped: bool): (s: string)
    ensures s == [] || s[0] == ' '
    ensures (s == []) == !stopped
  {
    if stopped then STOPPED else ""
  }

  /** What follows the opening of the position in a landed rover's status. */
  function Rest(direction: Direction, stopped: bool): (s: string)
    ensures |s| > 2 && s[0] == ')'
  {
    ") " + Name(direction) + Suffix(stopped)
  }

  /** A landed rover's status begins with the text of its position and ends
      in " stopped" when it has stopped, else in the name of its direction. */
  lemma StatusParts(p: Position, d: Direction, stopped: bool)
    ensures Text(p) <= Status(true, p, d, stopped)
    ensures var s := Status(true, p, d, stopped);
              if stopped then |s| > |STOPPED| && s[|s| - |STOPPED|..] == STOPPED
              else |s| > |Name(d)| && s[|s| - |Name(d)|..] == Name(d)
  {
    var t, n := Text(p), Name(d);
    var s := Status(true, p, d, stopped);
    if stopped {
      assert s == t + (" " + n) + STOPPED;
      PrefixAndSuffix(t, " " + n, STOPPED);
    } else {
      assert s == t + " " + n;
      PrefixAndSuffix(t, " ", n);
    }
  }

  /** In `a + b + c`, with `c` non-empty, `a` is a prefix and `c` a suffix. */
  lemma PrefixAndSuffix(a: string, b: string, c: string)
    requires |b| > 0
    ensures a <= a + b + c
    ensures var s := a + b + c; |s| > |c| && s[|s| - |c|..] == c
  {
    var s := a + b + c;
    assert s[..|a|] == a;
    assert s[|s| - |c|..] == c;
  }

  /** A landed rover's status is the opening of its position text followed
      by the rest, the form `StatusInjective` splits. */
  lemma StatusShape(p: Position, d: Direction, stopped: bool)
    ensures Status(true, p, d, stopped) == Opening(p) + Rest(d, stopped)
  {
  }
}
