/** The one use the application makes of Math.random: Math.floor(Math.random() * n). The draw is a parameter. */
module RandomDraw {

  /** A draw from [0, 1), as Math.random returns. */
  predicate IsDraw(draw: real) { 0.0 <= draw < 1.0 }

  function RandomIndex(draw: real, n: nat): (i: nat)
    requires IsDraw(draw) && n > 0
    ensures i < n
    ensures i as real <= draw * n as real < i as real + 1.0
  {
    var x := draw * n as real;
    assert 0.0 <= x < n as real;
    x.Floor
  }
}
