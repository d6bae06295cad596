/**
 The servo positions of the owl head: two eyes (pan and tilt each) and the
 neck pan. The control program keeps them in five plain `int` globals and
 never clamps them, so the model uses unbounded integers and no range.
 */
module AxisState {

  /** The five servo channels, listed in the order they travel on the wire. */
  datatype Axis = Rx | Ry | Lx | Ly | Neck

  /** Current positions, in servo units. */
  datatype Axes = Axes(rx: int, ry: int, lx: int, ly: int, neck: int)
  {
    /** The position of one channel. */
    function Get(a: Axis): int
    {
      match a
      case Rx => rx
      case Ry => ry
      case Lx => lx
      case Ly => ly
      case Neck => neck
    }

    /** These positions with channel `a` moved to `v` and nothing else changed. */
    function With(a: Axis, v: int): (r: Axes)
      ensures r.Get(a) == v
      ensures forall b :: b != a ==> r.Get(b) == Get(b)
    {
      match a
      case Rx => this.(rx := v)
      case Ry => this.(ry := v)
      case Lx => this.(lx := v)
      case Ly => this.(ly := v)
      case Neck => this.(neck := v)
    }
  }

  /** Two sets of positions are equal when they agree on every channel. */
  lemma Extensional(x: Axes, y: Axes)
    requires forall a :: x.Get(a) == y.Get(a)
    ensures x == y
  {
    assert x.Get(Rx) == y.Get(Rx) && x.Get(Ry) == y.Get(Ry) && x.Get(Lx) == y.Get(Lx);
    assert x.Get(Ly) == y.Get(Ly) && x.Get(Neck) == y.Get(Neck);
  }
}
