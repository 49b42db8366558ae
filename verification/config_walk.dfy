/** The Markov-chain walker over a real configuration vector, and the two
    sample estimators (config_walk.py). Floats are idealised as `real`; every
    random draw of the source is a parameter of the operation that makes it. */
module ConfigWalk {
  import opened Wrappers

  /** A proposal: `c` with coordinate `a` moved by `s`, every other coordinate kept. */
  function Propose(c: seq<real>, a: nat, s: real): (r: seq<real>)
    requires a < |c|
    ensures |r| == |c| && r[a] == c[a] + s
    ensures forall i :: 0 <= i < |c| && i != a ==> r[i] == c[i]
  {
    c[a := c[a] + s]
  }

  /** `c` and `d` have the same length and agree everywhere except possibly at `a`. */
  predicate DiffersAtMostAt(c: seq<real>, d: seq<real>, a: nat)
  {
    |c| == |d| && forall i :: 0 <= i < |c| && i != a ==> c[i] == d[i]
  }

  /** The single-axis proposal kernel is symmetric: the opposite step on the
      same axis undoes a proposal. */
  lemma {:induction false} ProposalIsSymmetric(c: seq<real>, a: nat, s: real)
    requires a < |c|
    ensures Propose(Propose(c, a, s), a, -s) == c
  {
    var back := Propose(Propose(c, a, s), a, -s);
    assert |back| == |c|;
    forall i | 0 <= i < |c| ensures back[i] == c[i] {
      if i == a {
        assert back[a] == c[a] + s + -s;
      }
    }
  }

  /** Every configuration that differs from `c` only on axis `a` is a possible
      proposal from `c`: the step length that reaches it is `d[a] - c[a]`. */
  lemma {:induction false} ProposalReachesAxisNeighbours(c: seq<real>, d: seq<real>, a: nat)
    requires a < |c|
    requires DiffersAtMostAt(c, d, a)
    ensures Propose(c, a, d[a] - c[a]) == d
  {
    var p := Propose(c, a, d[a] - c[a]);
    forall i | 0 <= i < |c| ensures p[i] == d[i] {
      if i == a {
        assert p[a] == c[a] + (d[a] - c[a]);
      }
    }
  }

  /** The Metropolis acceptance ratio for weights `wr = wf(r)` at the current
      point and `wrp = wf(rp)` at the proposal; 10 is the sentinel forcing
      acceptance when the current weight is zero. */
  function AcceptanceRatio(wr: real, wrp: real): (p: real)
    ensures p >= 0.0
    ensures wr == 0.0 ==> p >= 1.0
    ensures wr != 0.0 && (wrp == wr || wrp == -wr) ==> p == 1.0
  {
    if wr == 0.0 then 10.0 else (wrp / wr) * (wrp / wr)
  }

  /** The accept/reject decision for ratio `p` and uniform draw `u`. With `u`
      uniform on [0, 1) the proposal is accepted exactly when `u < min(1, p)`,
      so the acceptance probability is `min(1, p)`. */
  predicate Accepts(p: real, u: real)
    ensures 0.0 <= u < 1.0 ==> (Accepts(p, u) <==> u < Min(1.0, p))
  {
    p >= 1.0 || u < p
  }

  function Min(x: real, y: real): real
  {
    if x <= y then x else y
  }

  /** A walker at a point of zero weight accepts whatever it draws. */
  lemma ZeroWeightForcesAcceptance(wrp: real, u: real)
    ensures Accepts(AcceptanceRatio(0.0, wrp), u)
  {
  }

  /** A proposal of equal weight is always accepted. */
  lemma EqualWeightIsAccepted(w: real, u: real)
    ensures Accepts(AcceptanceRatio(w, w), u)
  {
  }

  /** Only the squared wavefunction matters: flipping the sign of either
      weight leaves the ratio unchanged. */
  lemma OnlySquaredWeightMatters(wr: real, wrp: real)
    ensures AcceptanceRatio(-wr, wrp) == AcceptanceRatio(wr, wrp)
    ensures AcceptanceRatio(wr, -wrp) == AcceptanceRatio(wr, wrp)
  {
  }

  /** Random walker over the configuration of `particles` particles in `dims`
      dimensions, each coordinate initially in [0, scale). */
  class ConfigWalker {
    const particles: nat
    const dims: nat
    const scale: real
    const coordN: nat
    const maxStep: real
    var config: seq<real>

    /** `start` stands for the uniform draw of `coordN` coordinates in [0, scale);
        the other parameters keep the source's defaults. */
    constructor (start: seq<real>, particles: nat := 1, dims: nat := 3, scale: real := 1.0)
      requires |start| == dims * particles
      requires forall i :: 0 <= i < |start| ==> 0.0 <= start[i] < scale
      ensures this.particles == particles && this.dims == dims && this.scale == scale
      ensures coordN == dims * particles && maxStep == 0.4 * scale
      ensures config == start
      ensures |config| == coordN && forall i :: 0 <= i < coordN ==> 0.0 <= config[i] < scale
    {
      this.particles := particles;
      this.dims := dims;
      this.scale := scale;
      coordN := dims * particles;
      config := start;
      maxStep := 0.4 * scale;
    }

    /** A fresh copy of the stored configuration. */
    method CurrentConfig() returns (c: array<real>)
      ensures fresh(c) && c[..] == config
    {
      var snapshot := config;
      c := new real[|snapshot|](i requires 0 <= i < |snapshot| => snapshot[i]);
    }

    /** Proposes moving axis `axis` by `stepLen` (the two random draws) without
        moving. With `coordN == 0` the axis range is empty and drawing from it
        raises ValueError. Indexing past the stored vector raises IndexError;
        that is possible only after `MoveTo` stored a vector shorter than
        `coordN`. Having no `modifies` clause, it leaves the walker unchanged. */
    method TryStep(axis: nat, stepLen: real) returns (rp: Result<seq<real>>)
      requires coordN > 0 ==> axis < coordN
      ensures rp.Ok? <==> coordN > 0 && axis < |config|
      ensures rp.Err? ==> rp.error == if coordN == 0 then ValueError else IndexError
      ensures rp.Ok? ==> rp.value == Propose(config, axis, stepLen)
      ensures rp.Ok? ==> DiffersAtMostAt(config, rp.value, axis) && rp.value[axis] == config[axis] + stepLen
    {
      if coordN == 0 {
        return Err(ValueError);
      }
      var current := CurrentConfig();
      var stepVec := new real[current.Length](_ => 0.0);
      if axis >= stepVec.Length {
        return Err(IndexError);
      }
      stepVec[axis] := stepVec[axis] + stepLen;
      var base := CurrentConfig();
      var moved := seq(base.Length, i requires 0 <= i < base.Length reads base, stepVec => base[i] + stepVec[i]);
      assert moved == Propose(config, axis, stepLen);
      rp := Ok(moved);
    }

    /** Replaces the stored configuration. */
    method MoveTo(destination: seq<real>)
      modifies this
      ensures config == destination
    {
      config := destination;
    }

    /** Proposes a move and takes it unconditionally. */
    method Step(axis: nat, stepLen: real) returns (outcome: Outcome)
      requires coordN > 0 ==> axis < coordN
      modifies this
      ensures outcome.Pass? <==> coordN > 0 && axis < |old(config)|
      ensures outcome.Pass? ==> config == Propose(old(config), axis, stepLen)
      ensures outcome.Fail? ==> config == old(config)
      ensures outcome.Fail? ==> outcome.error == if coordN == 0 then ValueError else IndexError
      ensures DiffersAtMostAt(old(config), config, axis)
    {
      var dest := TryStep(axis, stepLen);
      if dest.Err? {
        return Fail(dest.error);
      }
      MoveTo(dest.value);
      outcome := Pass;
    }

    /** One Metropolis step against wavefunction `wf`: propose along `axis` by
        `stepLen`, then accept with probability min(1, (wf(rp)/wf(r))^2) using
        the uniform draw `u`. The stored configuration is afterwards either the
        old one or the proposal, never anything else. */
    method MetropolisStep(wf: seq<real> -> real, axis: nat, stepLen: real, u: real) returns (outcome: Outcome)
      requires coordN > 0 ==> axis < coordN
      requires 0.0 <= u < 1.0
      modifies this
      ensures outcome.Pass? <==> coordN > 0 && axis < |old(config)|
      ensures outcome.Fail? ==> config == old(config)
      ensures outcome.Fail? ==> outcome.error == if coordN == 0 then ValueError else IndexError
      ensures outcome.Pass? ==>
        var rp := Propose(old(config), axis, stepLen);
        config == if Accepts(AcceptanceRatio(wf(old(config)), wf(rp)), u) then rp else old(config)
      ensures config == old(config) || config == Propose(old(config), axis, stepLen)
      ensures DiffersAtMostAt(old(config), config, axis)
    {
      var r := CurrentConfig();
      var rp := TryStep(axis, stepLen);
      if rp.Err? {
        return Fail(rp.error);
      }
      var p: real;
      if wf(r[..]) == 0.0 {
        p := 10.0;
      } else {
        p := (wf(rp.value) / wf(r[..])) * (wf(rp.value) / wf(r[..]));
      }
      if p >= 1.0 {
        MoveTo(rp.value);
      } else if u < p {
        MoveTo(rp.value);
      }
      outcome := Pass;
    }
  }

  /** Sum of `f` over `cs`, accumulated front to back. */
  function SumOf<T>(cs: seq<T>, f: T -> real): real
  {
    if |cs| == 0 then 0.0 else SumOf(cs[..|cs| - 1], f) + f(cs[|cs| - 1])
  }

  /** Sum of the squared deviations of `f` from `avg` over `cs`. */
  function SumSqDev<T>(cs: seq<T>, f: T -> real, avg: real): real
  {
    if |cs| == 0 then 0.0
    else SumSqDev(cs[..|cs| - 1], f, avg) + (f(cs[|cs| - 1]) - avg) * (f(cs[|cs| - 1]) - avg)
  }

  lemma {:induction false} SumSqDevNonNegative<T>(cs: seq<T>, f: T -> real, avg: real)
    ensures SumSqDev(cs, f, avg) >= 0.0
  {
    if |cs| > 0 {
      SumSqDevNonNegative(cs[..|cs| - 1], f, avg);
      var d := f(cs[|cs| - 1]) - avg;
      if d < 0.0 {
        assert d * d == (-d) * (-d);
      }
      assert d * d >= 0.0;
    }
  }

  /** Sample mean of `f` over `configs`; no samples is a float division by zero.
      A sample is a configuration or any other value `f` accepts. */
  method SampleAvg<T>(configs: seq<T>, f: T -> real) returns (r: Result<real>)
    ensures |configs| == 0 <==> r.Err?
    ensures r.Err? ==> r.error == ZeroDivisionError
    ensures r.Ok? ==> r.value == SumOf(configs, f) / (|configs| as real)
  {
    var sum := 0.0;
    for i := 0 to |configs|
      invariant sum == SumOf(configs[..i], f)
    {
      assert configs[..i + 1][..i] == configs[..i];
      sum := sum + f(configs[i]);
    }
    assert configs[..|configs|] == configs;
    if |configs| == 0 {
      return Err(ZeroDivisionError);
    }
    r := Ok(sum / (|configs| as real));
  }

  /** The square of `sample_stdev`: the squared deviations from `avg` over
      N - 1. One sample divides by zero; no samples divides 0 by -1. */
  method SampleVariance<T>(configs: seq<T>, f: T -> real, avg: real) returns (r: Result<real>)
    ensures |configs| == 1 <==> r.Err?
    ensures r.Err? ==> r.error == ZeroDivisionError
    ensures r.Ok? ==> r.value == SumSqDev(configs, f, avg) / (|configs| as real - 1.0)
    ensures r.Ok? ==> r.value >= 0.0
  {
    var sumDev := 0.0;
    for i := 0 to |configs|
      invariant sumDev == SumSqDev(configs[..i], f, avg)
    {
      assert configs[..i + 1][..i] == configs[..i];
      sumDev := sumDev + (f(configs[i]) - avg) * (f(configs[i]) - avg);
    }
    assert configs[..|configs|] == configs;
    if |configs| == 1 {
      return Err(ZeroDivisionError);
    }
    if |configs| == 0 {
      assert sumDev == 0.0;
    } else {
      SumSqDevNonNegative(configs, f, avg);
    }
    r := Ok(sumDev / (|configs| as real - 1.0));
  }

  function Identity(x: real): real
  {
    x
  }

  /** Hand-computed reference: on the samples 1, 2, 3 the mean is 2 and the
      (N - 1) variance about 2 is 1. */
  lemma EstimatorsOnOneTwoThree()
    ensures var xs := [1.0, 2.0, 3.0];
      SumOf(xs, Identity) / 3.0 == 2.0 && SumSqDev(xs, Identity, 2.0) / 2.0 == 1.0
  {
    var xs := [1.0, 2.0, 3.0];
    assert xs[..2] == [1.0, 2.0] && xs[..2][..1] == [1.0];
    assert SumOf(xs[..2][..1], Identity) == 1.0;
    assert SumOf(xs[..2], Identity) == 3.0;
    assert SumOf(xs, Identity) == 6.0;
    assert SumSqDev(xs[..2][..1], Identity, 2.0) == 1.0;
    assert SumSqDev(xs[..2], Identity, 2.0) == 1.0;
    assert SumSqDev(xs, Identity, 2.0) == 2.0;
  }
}
