/**
 * The scalar step integrator: a ten-field state advanced by `solve_step`, with the
 * freestanding math stubs as the exact polynomials the C code evaluates.
 * `float` is modelled as `real`, so rounding, overflow and NaN are not modelled.
 */
module QCore {
  const PHI: real := 1.618033988
  const PI: real := 3.141592653

  /** `k_sin`: the degree-7 Taylor polynomial, nested as the source evaluates it. */
  function KSin(x: real): real {
    var x2 := x * x;
    x * (1.0 - x2 * (1.0 / 6.0 - x2 * (1.0 / 120.0 - x2 * (1.0 / 5040.0))))
  }

  /** `k_cos`: the degree-8 Taylor polynomial, nested as the source evaluates it. */
  function KCos(x: real): real {
    var x2 := x * x;
    1.0 - x2 * (0.5 - x2 * (1.0 / 24.0 - x2 * (1.0 / 720.0 - x2 * (1.0 / 40320.0))))
  }

  /**
   * `k_log`: -10 for non-positive arguments, otherwise the second-order expansion
   * around 1, which never exceeds 1/2 (its value at x = 2).
   */
  function KLog(x: real): (r: real)
    ensures x <= 0.0 ==> r == -10.0
    ensures r <= 0.5
  {
    if x <= 0.0 then -10.0
    else
      var u := x - 1.0;
      assert u - 0.5 * u * u == 0.5 - 0.5 * (u - 1.0) * (u - 1.0);
      u - 0.5 * u * u
  }

  /** `golden_operator`: the product of two cosines at frequencies PI and PI * PHI. */
  function GoldenOperator(n: real): real {
    KCos(PI * n) * KCos(PI * PHI * n)
  }

  /** `k_sin` is odd and vanishes at 0. */
  lemma KSinOdd(x: real)
    ensures KSin(-x) == -KSin(x)
    ensures KSin(0.0) == 0.0
  {
    assert (-x) * (-x) == x * x;
  }

  /** `k_cos` is even and is 1 at 0. */
  lemma KCosEven(x: real)
    ensures KCos(-x) == KCos(x)
    ensures KCos(0.0) == 1.0
  {
    assert (-x) * (-x) == x * x;
  }

  lemma KLogAtOne()
    ensures KLog(1.0) == 0.0
  {
  }

  /** The operator is 1 at the origin. */
  lemma GoldenOperatorAtZero()
    ensures GoldenOperator(0.0) == 1.0
  {
    KCosEven(0.0);
    assert PI * 0.0 == 0.0 && PI * PHI * 0.0 == 0.0;
  }

  /** The ten fields of `SystemState`, as a value. */
  datatype State = State(
    time: real,
    kink_amplitude: real,
    stability: real,
    shear_flow: real,
    phi_res: real,
    node_density: real,
    pump_phase: real,
    bit_stream: real,
    golden_filter: real,
    causal_flux: real)

  /** The state `init_system` establishes. */
  function InitState(): State {
    State(0.0, 50.0, 50.0, 5.0, PHI, 0.0, 0.0, 0.0, PHI, 0.0)
  }

  /** The final clamp of `stability` into [0, 100]. */
  function ClampStability(x: real): (r: real)
    ensures 0.0 <= r <= 100.0
    ensures 0.0 <= x <= 100.0 ==> r == x
    ensures x < 0.0 ==> r == 0.0
    ensures x > 100.0 ==> r == 100.0
  {
    var low := if x < 0.0 then 0.0 else x;
    if low > 100.0 then 100.0 else low
  }

  /**
   * The golden-filter relaxation g := (PHI * g + 1) / 2, reset to PHI when it would
   * exceed 10.
   */
  function FilterUpdate(g: real): (r: real)
    ensures r <= 10.0
    ensures (PHI * g + 1.0) * 0.5 <= 10.0 ==> r == (PHI * g + 1.0) * 0.5
    ensures (PHI * g + 1.0) * 0.5 > 10.0 ==> r == PHI
  {
    var next := (PHI * g + 1.0) * 0.5;
    if next > 10.0 then PHI else next
  }

  /** The filtered 5 V packet: nothing below the density threshold, else 2.5 * filter. */
  function CausalFlux(density: real, filter: real): (r: real)
    ensures density <= 0.5 ==> r == 0.0
    ensures density > 0.5 ==> r == 2.5 * filter
  {
    var raw_binary_input := if density > 0.5 then 5.0 else 0.0;
    (raw_binary_input * filter) * 0.5
  }

  /*
   * `solve_step` statement by statement: each phase below is one group of assignments of
   * the driver, applied to the state the previous group left, so later phases read the
   * fields earlier phases updated (`decoherence` reads the relaxed stability, the flux
   * reads the updated density and filter).
   */

  /** `state->time += dt`. */
  function Advance(s: State, dt: real): State {
    s.(time := s.time + dt)
  }

  /** The Hamiltonian kink amplitude 50 k_sin(time / 2) (10 - shear) / 10. */
  function KinkAmplitude(time: real, shear: real): real {
    var energy_potential := 10.0 - shear;
    50.0 * KSin(time * 0.5) * (energy_potential / 10.0)
  }

  /** The kink vanishes at full shear, whatever the time. */
  lemma KinkAtFullShear(time: real)
    ensures KinkAmplitude(time, 10.0) == 0.0
  {
  }

  /** The kink, driven by the already advanced time. */
  function Kink(s: State): State {
    s.(kink_amplitude := KinkAmplitude(s.time, s.shear_flow))
  }

  /** The metric relaxation of stability towards its target, plus the vacuum term. */
  function Relax(s: State, dt: real): State {
    var target_stability := if s.shear_flow >= 9.9 then 100.0 else s.shear_flow * 8.0;
    var d_metr := (target_stability - s.stability) * 0.08;
    var vacuum := GoldenOperator(s.time * 0.1) * 0.5;
    s.(stability := s.stability + (d_metr + vacuum) * dt * 10.0)
  }

  /** The topological clock. */
  function Pump(s: State, dt: real): State {
    s.(pump_phase := s.pump_phase + dt * PI * PHI)
  }

  /** The scalar Lindblad update of the node density: pump gain minus decoherence loss. */
  function Lindblad(s: State, dt: real): State {
    var pump := KCos(s.pump_phase) * 0.5 + 0.5;
    var decoherence := (105.0 - s.stability) * 0.005;
    s.(node_density := s.node_density + (pump - decoherence * s.node_density) * dt)
  }

  /** Throughput grows with the density above stability 90 and decays by 5% otherwise. */
  function Throughput(bits: real, density: real, stability: real, dt: real): real {
    if stability > 90.0 then bits + density * dt else bits * 0.95
  }

  function Bits(s: State, dt: real): State {
    s.(bit_stream := Throughput(s.bit_stream, s.node_density, s.stability, dt))
  }

  function Filter(s: State): State {
    s.(golden_filter := FilterUpdate(s.golden_filter))
  }

  function Flux(s: State): State {
    s.(causal_flux := CausalFlux(s.node_density, s.golden_filter))
  }

  function Clamp(s: State): State {
    s.(stability := ClampStability(s.stability))
  }

  /** The state `solve_step` has built just before its final clamp of stability. */
  function Unclamped(s: State, dt: real): State {
    Flux(Filter(Bits(Lindblad(Pump(Relax(Kink(Advance(s, dt)), dt), dt), dt), dt)))
  }

  /** `solve_step` on values. */
  function Step(s: State, dt: real): State {
    Clamp(Unclamped(s, dt))
  }

  /** Time advances by dt, the pump phase by dt * PI * PHI; shear flow and resonance stay. */
  lemma StepFrame(s: State, dt: real)
    ensures var r := Step(s, dt);
      r.time == s.time + dt && r.pump_phase == s.pump_phase + dt * PI * PHI &&
      r.shear_flow == s.shear_flow && r.phi_res == s.phi_res
  {
  }

  /** Stability ends in [0, 100], and is the relaxed value whenever that is in range. */
  lemma StepStability(s: State, dt: real)
    ensures var r, u := Step(s, dt), Unclamped(s, dt);
      0.0 <= r.stability <= 100.0 &&
      (0.0 <= u.stability <= 100.0 ==> r.stability == u.stability)
  {
  }

  /**
   * The filter stays at most 10, and the flux is 0 or 2.5 times the updated filter,
   * according to the updated density.
   */
  lemma StepFilterFlux(s: State, dt: real)
    ensures var r := Step(s, dt);
      r.golden_filter <= 10.0 &&
      (r.node_density <= 0.5 ==> r.causal_flux == 0.0) &&
      (r.node_density > 0.5 ==> r.causal_flux == 2.5 * r.golden_filter)
  {
  }

  /**
   * The bit stream is updated from the stability before the clamp and from the density
   * the same step has just updated.
   */
  lemma StepBitStream(s: State, dt: real)
    ensures var r, u := Step(s, dt), Unclamped(s, dt);
      r.bit_stream == Throughput(s.bit_stream, r.node_density, u.stability, dt)
  {
  }

  /** The kink amplitude is computed from the advanced time and the (unchanged) shear flow. */
  lemma StepKink(s: State, dt: real)
    ensures var r := Step(s, dt);
      r.kink_amplitude == KinkAmplitude(r.time, r.shear_flow) &&
      r.time == s.time + dt && r.shear_flow == s.shear_flow
  {
  }

  /**
   * The states reachable from `init_system`: stability and filter in range, the resonance
   * at PHI, and the flux either off or 2.5 times a filter value. The shear flow is left
   * free, so the invariant also holds when the shear is changed between steps.
   */
  predicate Reachable(s: State) {
    0.0 <= s.stability <= 100.0 &&
    PHI <= s.golden_filter <= 10.0 &&
    s.phi_res == PHI &&
    (s.causal_flux == 0.0 || 2.5 * PHI <= s.causal_flux <= 25.0)
  }

  /** On the filter range [PHI, 10] the relaxation never reaches the reset branch. */
  lemma FilterNoReset(g: real)
    requires PHI <= g <= 10.0
    ensures FilterUpdate(g) == (PHI * g + 1.0) * 0.5
    ensures PHI <= FilterUpdate(g) <= 10.0
  {
  }

  lemma StepReachable(s: State, dt: real)
    requires Reachable(s)
    ensures Reachable(Step(s, dt))
    ensures Step(s, dt).golden_filter == (PHI * s.golden_filter + 1.0) * 0.5
  {
    FilterNoReset(s.golden_filter);
  }

  /** `SystemState`: the fields `init_system` and `solve_step` update in place. */
  class SystemState {
    var time: real
    var kink_amplitude: real
    var stability: real
    var shear_flow: real
    var phi_res: real
    var node_density: real
    var pump_phase: real
    var bit_stream: real
    var golden_filter: real
    var causal_flux: real

    function Value(): State
      reads this
    {
      State(time, kink_amplitude, stability, shear_flow, phi_res, node_density, pump_phase,
            bit_stream, golden_filter, causal_flux)
    }

    /** `init_system`. */
    method InitSystem()
      modifies this
      ensures Value() == InitState()
      ensures Reachable(Value())
    {
      time := 0.0;
      kink_amplitude := 50.0;
      stability := 50.0;
      shear_flow := 5.0;
      phi_res := PHI;
      node_density := 0.0;
      pump_phase := 0.0;
      bit_stream := 0.0;
      golden_filter := PHI;
      causal_flux := 0.0;
    }

    /**
     * `solve_step`: the fields updated one after another, as the driver does. Each call
     * below is one group of the driver's assignments, in the driver's order. Together
     * with `InitSystem`, the second postcondition makes `Reachable` an invariant of every
     * state reached from `init_system`, so the reset at 10 of the golden filter never fires.
     */
    method SolveStep(dt: real)
      modifies this
      ensures Value() == Step(old(Value()), dt)
      ensures old(Reachable(Value())) ==>
        Reachable(Value()) && golden_filter == (PHI * old(golden_filter) + 1.0) * 0.5
    {
      ghost var s := Value();
      AdvanceTime(dt);
      UpdateKink();
      RelaxStability(dt);
      AdvancePump(dt);
      UpdateDensity(dt);
      UpdateBitStream(dt);
      UpdateFilter();
      UpdateFlux();
      ClampFinal();
      if Reachable(s) {
        StepReachable(s, dt);
      }
    }

    method AdvanceTime(dt: real)
      modifies this
      ensures Value() == Advance(old(Value()), dt)
    {
      time := time + dt;
    }

    method UpdateKink()
      modifies this
      ensures Value() == Kink(old(Value()))
    {
      hide KSin;
      var energy_potential := 10.0 - shear_flow;
      kink_amplitude := 50.0 * KSin(time * 0.5) * (energy_potential / 10.0);
    }

    method RelaxStability(dt: real)
      modifies this
      ensures Value() == Relax(old(Value()), dt)
    {
      hide KCos;
      hide GoldenOperator;
      ghost var s := Value();
      var target_stability := if shear_flow >= 9.9 then 100.0 else shear_flow * 8.0;
      var d_metr := (target_stability - stability) * 0.08;
      var vacuum := GoldenOperator(time * 0.1) * 0.5;
      assert d_metr + vacuum == (if s.shear_flow >= 9.9 then 100.0 else s.shear_flow * 8.0) * 0.08
        - s.stability * 0.08 + GoldenOperator(s.time * 0.1) * 0.5;
      stability := stability + (d_metr + vacuum) * dt * 10.0;
    }

    method AdvancePump(dt: real)
      modifies this
      ensures Value() == Pump(old(Value()), dt)
    {
      pump_phase := pump_phase + dt * PI * PHI;
    }

    method UpdateDensity(dt: real)
      modifies this
      ensures Value() == Lindblad(old(Value()), dt)
    {
      var pump := KCos(pump_phase) * 0.5 + 0.5;
      var decoherence := (105.0 - stability) * 0.005;
      node_density := node_density + (pump - decoherence * node_density) * dt;
    }

    method UpdateBitStream(dt: real)
      modifies this
      ensures Value() == Bits(old(Value()), dt)
    {
      if stability > 90.0 {
        bit_stream := bit_stream + node_density * dt;
      } else {
        bit_stream := bit_stream * 0.95;
      }
    }

    method UpdateFilter()
      modifies this
      ensures Value() == Filter(old(Value()))
    {
      golden_filter := (PHI * golden_filter + 1.0) * 0.5;
      if golden_filter > 10.0 {
        golden_filter := PHI;
      }
    }

    method UpdateFlux()
      modifies this
      ensures Value() == Flux(old(Value()))
    {
      var raw_binary_input := if node_density > 0.5 then 5.0 else 0.0;
      causal_flux := (raw_binary_input * golden_filter) * 0.5;
    }

    method ClampFinal()
      modifies this
      ensures Value() == Clamp(old(Value()))
    {
      if stability < 0.0 {
        stability := 0.0;
      }
      if stability > 100.0 {
        stability := 100.0;
      }
    }
  }
}
