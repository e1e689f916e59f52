/**
 * The GoldenLaunder pulse controller: a proportional correction of the PWM duty cycle
 * with a hard clamp, a 0 V / 5 V pulse against a cosine threshold, and an exponential
 * moving average of V^2 whose square root is the measured RMS.
 *
 * `float` is modelled as `real`; `k_sqrt`, called at kernel/hal_golden_launder.c:41 but
 * declared nowhere in that file or its headers, is a function parameter; the 64-bit step
 * counter wraps explicitly.
 */
module Launder {
  import opened QCore

  const U64: int := 0x1_0000_0000_0000_0000

  const DUTY_MIN: real := 0.01
  const DUTY_MAX: real := 0.50
  const V_HIGH: real := 5.0

  /** The seven fields of `GoldenLaunder`, as a value. */
  datatype Controller = Controller(
    target_phi: real,
    current_rms: real,
    duty_cycle: real,
    kp: real,
    step_count: int,
    last_v: real,
    rms_acc: real)

  /** The state `hal_launder_init` establishes. */
  function InitController(): Controller {
    Controller(PHI, 0.0, (PHI * PHI) / 25.0, 0.001, 0, 0.0, 0.0)
  }

  /** The duty cycle moved by the gain times the error between target and measured RMS. */
  function RawDuty(duty: real, target: real, rms: real, kp: real): real {
    var error := target - rms;
    duty + error * kp
  }

  /**
   * The duty cycle after one proportional correction: always within [0.01, 0.50]; the
   * raw corrected value itself whenever that already lies in the range, else the bound
   * it crossed.
   */
  function CorrectedDuty(duty: real, target: real, rms: real, kp: real): (d: real)
    ensures DUTY_MIN <= d <= DUTY_MAX
    ensures DUTY_MIN <= RawDuty(duty, target, rms, kp) <= DUTY_MAX ==> d == RawDuty(duty, target, rms, kp)
    ensures RawDuty(duty, target, rms, kp) < DUTY_MIN ==> d == DUTY_MIN
    ensures RawDuty(duty, target, rms, kp) > DUTY_MAX ==> d == DUTY_MAX
  {
    var raised := RawDuty(duty, target, rms, kp);
    var low := if raised < DUTY_MIN then DUTY_MIN else raised;
    if low > DUTY_MAX then DUTY_MAX else low
  }

  /** `apply_voltage_correction` on values: only the duty cycle changes, into [0.01, 0.50]. */
  function Correct(c: Controller): (r: Controller)
    ensures r.(duty_cycle := c.duty_cycle) == c
    ensures DUTY_MIN <= r.duty_cycle <= DUTY_MAX
  {
    c.(duty_cycle := CorrectedDuty(c.duty_cycle, c.target_phi, c.current_rms, c.kp))
  }

  /**
   * The voltage of the quasiperiodic pulse at time `t`: 5 V when the phase-modulated
   * cosine exceeds the threshold set by the duty cycle, else 0 V.
   */
  function Pulse(t: real, duty: real): (v: real)
    ensures v == 0.0 || v == V_HIGH
  {
    var threshold := KCos(PI * duty);
    var phase_mod := GoldenOperator(t) * PI;
    if KCos(t * PI * 2.0 + phase_mod) > threshold then V_HIGH else 0.0
  }

  /**
   * One step of the moving average of V^2. For a pulse voltage it keeps the accumulator
   * within [0, 25], the range of V^2; a 0 V pulse makes a positive accumulator decay
   * strictly.
   */
  function RmsUpdate(acc: real, v: real): (r: real)
    ensures 0.0 <= acc <= 25.0 && (v == 0.0 || v == V_HIGH) ==> 0.0 <= r <= 25.0
    ensures v == 0.0 && acc > 0.0 ==> r < acc
    ensures v == 0.0 ==> r == 0.9995 * acc
  {
    var instantaneous_v2 := v * v;
    (0.9995 * acc) + (0.0005 * instantaneous_v2)
  }

  /**
   * The pulse and accumulator update that follow the correction in `hal_launder_step`:
   * only the voltage, the accumulator and the RMS change; the voltage is 0 V or 5 V and
   * the RMS is the square root of the new accumulator.
   */
  function Emit(c: Controller, t: real, sqrt: real -> real): (r: Controller)
    ensures r.(last_v := c.last_v, rms_acc := c.rms_acc, current_rms := c.current_rms) == c
    ensures r.last_v == 0.0 || r.last_v == V_HIGH
    ensures r.current_rms == sqrt(r.rms_acc) && r.rms_acc == RmsUpdate(c.rms_acc, r.last_v)
  {
    var v := Pulse(t, c.duty_cycle);
    var acc := RmsUpdate(c.rms_acc, v);
    c.(last_v := v, rms_acc := acc, current_rms := sqrt(acc))
  }

  /** `hal_launder_step` on values, with `k_sqrt` given as `sqrt`. */
  function StepController(c: Controller, t: real, sqrt: real -> real): Controller {
    Emit(Correct(c.(step_count := (c.step_count + 1) % U64)), t, sqrt)
  }

  /**
   * What every state the controller reaches satisfies: gain and target fixed, the duty
   * cycle clamped, the last pulse a pulse voltage, the accumulator within [0, 25] and
   * the counter a 64-bit value.
   */
  predicate Valid(c: Controller) {
    c.target_phi == PHI && c.kp == 0.001 &&
    DUTY_MIN <= c.duty_cycle <= DUTY_MAX &&
    (c.last_v == 0.0 || c.last_v == V_HIGH) &&
    0.0 <= c.rms_acc <= 25.0 &&
    0 <= c.step_count < U64
  }

  /** `hal_launder_init` yields target PHI and RMS 0, and an initial duty near 0.1047. */
  lemma InitValid()
    ensures Valid(InitController())
    ensures InitController().target_phi == PHI && InitController().current_rms == 0.0
    ensures 0.1047 <= InitController().duty_cycle <= 0.1048
  {
  }

  /**
   * One step keeps `Valid`, counts itself modulo 2^64, leaves the target and gain alone,
   * and stores the square root of the new accumulator as the RMS.
   */
  lemma StepValid(c: Controller, t: real, sqrt: real -> real)
    requires Valid(c)
    ensures var r := StepController(c, t, sqrt);
      Valid(r) &&
      r.step_count == (c.step_count + 1) % U64 &&
      r.current_rms == sqrt(r.rms_acc) &&
      r.rms_acc == RmsUpdate(c.rms_acc, r.last_v)
  {
    var d := Correct(c.(step_count := (c.step_count + 1) % U64));
    var v := Pulse(t, d.duty_cycle);
    assert v == 0.0 || v == V_HIGH;
    assert 0.0 <= RmsUpdate(c.rms_acc, v) <= 25.0;
  }

  /** `GoldenLaunder`: the controller fields the HAL updates in place. */
  class GoldenLaunder {
    var target_phi: real
    var current_rms: real
    var duty_cycle: real
    var kp: real
    var step_count: int
    var last_v: real
    var rms_acc: real

    function Value(): Controller
      reads this
    {
      Controller(target_phi, current_rms, duty_cycle, kp, step_count, last_v, rms_acc)
    }

    /** `hal_launder_init`. */
    method Init()
      modifies this
      ensures Value() == InitController()
      ensures Valid(Value()) && step_count == 0
    {
      target_phi := PHI;
      current_rms := 0.0;
      duty_cycle := (PHI * PHI) / 25.0;
      kp := 0.001;
      step_count := 0;
      last_v := 0.0;
      rms_acc := 0.0;
    }

    /** `apply_voltage_correction`: corrects and clamps the duty cycle and returns it. */
    method ApplyVoltageCorrection() returns (duty: real)
      modifies this
      ensures Value() == Correct(old(Value()))
      ensures duty == duty_cycle
    {
      ghost var c := Value();
      var error := target_phi - current_rms;
      duty_cycle := duty_cycle + error * kp;
      assert duty_cycle == RawDuty(c.duty_cycle, c.target_phi, c.current_rms, c.kp);
      if duty_cycle < DUTY_MIN {
        duty_cycle := DUTY_MIN;
      }
      if duty_cycle > DUTY_MAX {
        duty_cycle := DUTY_MAX;
      }
      duty := duty_cycle;
    }

    /** `hal_launder_step`, with `k_sqrt` given as `sqrt`: returns the pulse voltage. */
    method Step(t: real, sqrt: real -> real) returns (v: real)
      modifies this
      ensures Value() == StepController(old(Value()), t, sqrt)
      ensures v == last_v
      ensures old(Valid(Value())) ==> Valid(Value()) && step_count == (old(step_count) + 1) % U64
    {
      ghost var c := Value();
      step_count := (step_count + 1) % U64;
      var duty := ApplyVoltageCorrection();
      EmitPulse(t, duty, sqrt);
      v := last_v;
      if Valid(c) {
        StepValid(c, t, sqrt);
      }
    }

    /** The pulse and the moving average, the second half of `hal_launder_step`. */
    method EmitPulse(t: real, duty: real, sqrt: real -> real)
      requires duty == duty_cycle
      modifies this
      ensures Value() == Emit(old(Value()), t, sqrt)
    {
      var threshold := KCos(PI * duty);
      var phase_mod := GoldenOperator(t) * PI;
      last_v := if KCos(t * PI * 2.0 + phase_mod) > threshold then V_HIGH else 0.0;
      var instantaneous_v2 := last_v * last_v;
      rms_acc := (0.9995 * rms_acc) + (0.0005 * instantaneous_v2);
      current_rms := sqrt(rms_acc);
    }
  }
}
