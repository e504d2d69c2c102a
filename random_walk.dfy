/**
 * RandomWalk<N>: a bounded random walk whose derivative is the excitation noise, with
 * its sign forced back toward the band [-limit, limit] when a component leaves it. The
 * noise draws of one call arrive as `draws`, one per component.
 */
module RandomWalk {
  import opened Window

  /**
   * The rule for one component: above the upper limit the derivative is minus the
   * magnitude of the draw, below the lower limit plus the magnitude, else the draw itself.
   */
  function Component(state: real, limit: real, draw: real): real
  {
    if state > limit then -Abs(draw)
    else if state < -limit then Abs(draw)
    else draw
  }

  /** The derivative of a whole state vector, component by component. */
  function Derivative(state: seq<real>, limit: seq<real>, draws: seq<real>): (rhs: seq<real>)
    requires |state| == |limit| == |draws|
    ensures |rhs| == |state|
    ensures forall i :: 0 <= i < |rhs| ==> rhs[i] == Component(state[i], limit[i], draws[i])
  {
    seq(|state|, i requires 0 <= i < |state| => Component(state[i], limit[i], draws[i]))
  }

  /** Every branch keeps the magnitude of the draw: only its sign is chosen. */
  lemma MagnitudeKept(state: real, limit: real, draw: real)
    ensures Abs(Component(state, limit, draw)) == Abs(draw)
  {
  }

  /** Above the band the walk is pushed down, below it up; inside it moves freely. */
  lemma PushedTowardBand(state: real, limit: real, draw: real)
    ensures state > limit ==> Component(state, limit, draw) <= 0.0
    ensures state < -limit && state <= limit ==> Component(state, limit, draw) >= 0.0
    ensures -limit <= state <= limit ==> Component(state, limit, draw) == draw
  {
  }

  /**
   * With a negative limit the two tests overlap; the upper test is made first, so a state
   * in the overlap is pushed down.
   */
  lemma UpperTestFirst(state: real, limit: real, draw: real)
    requires limit < 0.0 && limit < state < -limit
    ensures Component(state, limit, draw) == -Abs(draw)
  {
  }

  /** Component i of the derivative depends on component i of the inputs alone. */
  lemma ComponentsIndependent(state: seq<real>, limit: seq<real>, draws: seq<real>,
                              state': seq<real>, limit': seq<real>, draws': seq<real>, i: int)
    requires |state| == |limit| == |draws| && |state'| == |limit'| == |draws'| == |state|
    requires 0 <= i < |state| && state[i] == state'[i] && limit[i] == limit'[i] && draws[i] == draws'[i]
    ensures Derivative(state, limit, draws)[i] == Derivative(state', limit', draws')[i]
  {
  }

  class RandomWalk {
    /** N, the dimension of the walk. */
    const dimension: nat
    /** The step width of the ordinary differential equation the walk integrates. */
    const stepWidth: real
    /** The standard deviation each component's noise source is set to. */
    const standardDeviation: seq<real>
    const limit: seq<real>

    predicate Valid()
    {
      |standardDeviation| == dimension && |limit| == dimension
    }

    /** The constructor: one noise source per component, set to its standard deviation. */
    constructor(stepWidth: real, standardDeviation: seq<real>, limit: seq<real>)
      requires |standardDeviation| == |limit|
      ensures Valid() && dimension == |limit|
      ensures this.stepWidth == stepWidth && this.standardDeviation == standardDeviation && this.limit == limit
    {
      this.dimension := |limit|;
      this.stepWidth := stepWidth;
      this.standardDeviation := standardDeviation;
      this.limit := limit;
    }

    /** DerivativeFunction: fills all N components of rhs; the independent variable is unused. */
    method DerivativeFunction(x: real, state: seq<real>, rhs: array<real>, draws: seq<real>)
      requires Valid() && |state| == dimension && rhs.Length == dimension && |draws| == dimension
      modifies rhs
      ensures rhs[..] == Derivative(state, limit, draws)
    {
      for i := 0 to dimension
        invariant forall j :: 0 <= j < i ==> rhs[j] == Component(state[j], limit[j], draws[j])
      {
        if state[i] > limit[i] {
          rhs[i] := -Abs(draws[i]);
        } else if state[i] < -limit[i] {
          rhs[i] := Abs(draws[i]);
        } else {
          rhs[i] := draws[i];
        }
      }
    }
  }

  /** A walk's derivative has the draws' magnitudes and points back into the band. */
  lemma DerivativeBounded(state: seq<real>, limit: seq<real>, draws: seq<real>)
    requires |state| == |limit| == |draws|
    ensures var rhs := Derivative(state, limit, draws);
      forall i :: 0 <= i < |rhs| ==>
        && Abs(rhs[i]) == Abs(draws[i])
        && (state[i] > limit[i] ==> rhs[i] <= 0.0)
        && (state[i] < -limit[i] && state[i] <= limit[i] ==> rhs[i] >= 0.0)
  {
    var rhs := Derivative(state, limit, draws);
    forall i | 0 <= i < |rhs|
      ensures Abs(rhs[i]) == Abs(draws[i])
    {
      MagnitudeKept(state[i], limit[i], draws[i]);
    }
  }
}
