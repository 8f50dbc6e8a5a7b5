/**
 * The four-axis `Position` value that work offsets are made of.
 *
 * The work-offset code only ever adds positions (through the motion layer's
 * `set_offset`) and negates them (`offset * -1`), so that is all this module
 * provides, over exact reals.
 */
module Geometry {

  datatype Position = Position(x: real, y: real, z: real, e: real)

  /** The zero offset: machine space. */
  const Origin: Position := Position(0.0, 0.0, 0.0, 0.0)

  /** Component-wise addition. */
  function Add(a: Position, b: Position): Position {
    Position(a.x + b.x, a.y + b.y, a.z + b.z, a.e + b.e)
  }

  /** `p * -1`: the delta that undoes `p`. */
  function Neg(p: Position): Position {
    Position(-p.x, -p.y, -p.z, -p.e)
  }

  /** The net effect of a sequence of additive deltas, applied in order. */
  function Sum(deltas: seq<Position>): Position {
    if deltas == [] then Origin
    else Add(Sum(deltas[..|deltas| - 1]), deltas[|deltas| - 1])
  }

  /** Applying an offset on top of machine space gives just that offset. */
  lemma AddOrigin(q: Position)
    ensures Add(Origin, q) == q
  {
  }

  /** Deltas applied one, or two, at a time. */
  lemma SumShort(a: Position, b: Position)
    ensures Sum([]) == Origin
    ensures Sum([a]) == a
    ensures Sum([a, b]) == Add(a, b)
  {
    assert [a, b][..1] == [a];
    assert [a][..0] == [];
  }

  lemma AddAssociative(a: Position, b: Position, c: Position)
    ensures Add(a, Add(b, c)) == Add(Add(a, b), c)
  {
  }

  /** Applying two batches of deltas one after the other nets their two sums. */
  lemma {:induction false} SumAppend(a: seq<Position>, b: seq<Position>)
    ensures Sum(a + b) == Add(Sum(a), Sum(b))
  {
    if b == [] {
      assert a + b == a;
    } else {
      var n := |b| - 1;
      assert (a + b)[..|a + b| - 1] == a + b[..n];
      assert (a + b)[|a + b| - 1] == b[n];
      SumAppend(a, b[..n]);
    }
  }
}
