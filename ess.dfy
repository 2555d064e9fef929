/**
 * The energy storage system superclass (ESS_package/ESS.py): the stored
 * configuration, the state of energy SoE, the linear charge and discharge
 * updates and the wear cost estimate shared by every engine.
 */
module Ess {
  import opened Numerics

  /** Fraction of capacity that charging with power p for dt adds: abs(p * eta * dt) / Q. */
  function ChargeIncrement(p: real, eta: real, dt: real, Q: real): (r: real)
    requires Q != 0.0
    ensures 0.0 < Q ==> 0.0 <= r
    ensures r == 0.0 <==> p * eta * dt == 0.0
  {
    Abs(p * eta * dt) / Q
  }

  /** Fraction of capacity that discharging with power p for dt removes: abs(p / eta * dt) / Q. */
  function DischargeDecrement(p: real, eta: real, dt: real, Q: real): (r: real)
    requires eta != 0.0 && Q != 0.0
    ensures 0.0 < Q ==> 0.0 <= r
    ensures r == 0.0 <==> p / eta * dt == 0.0
  {
    Abs(p / eta * dt) / Q
  }

  /**
   * Energy in kWh of the gap from soe up to bound in a store of capacity Q:
   * (bound - soe) * Q. It is zero when soe has just been set to bound.
   */
  function EnergyGap(bound: real, soe: real, Q: real): (e: real)
    ensures soe == bound || Q == 0.0 ==> e == 0.0
    ensures 0.0 < Q ==> (0.0 < e <==> soe < bound)
  {
    (bound - soe) * Q
  }

  /** SoE after a linear charge from soe: the increment is added and the sum is clamped at SoEMax. */
  function ChargeStep(soe: real, p: real, eta: real, dt: real, Q: real, SoEMax: real): (r: real)
    requires Q != 0.0
    ensures r <= SoEMax
    ensures r == soe + ChargeIncrement(p, eta, dt, Q) <==> soe + ChargeIncrement(p, eta, dt, Q) <= SoEMax
    ensures r != soe + ChargeIncrement(p, eta, dt, Q) ==> r == SoEMax
    ensures 0.0 < Q && soe <= SoEMax ==> soe <= r
  {
    var s := soe + ChargeIncrement(p, eta, dt, Q);
    if s > SoEMax then SoEMax else s
  }

  /** SoE after a linear discharge from soe: the decrement is subtracted and the difference is clamped at SoEMin. */
  function DischargeStep(soe: real, p: real, eta: real, dt: real, Q: real, SoEMin: real): (r: real)
    requires eta != 0.0 && Q != 0.0
    ensures SoEMin <= r
    ensures r == soe - DischargeDecrement(p, eta, dt, Q) <==> SoEMin <= soe - DischargeDecrement(p, eta, dt, Q)
    ensures r != soe - DischargeDecrement(p, eta, dt, Q) ==> r == SoEMin
    ensures 0.0 < Q && SoEMin <= soe ==> r <= soe
  {
    var s := soe - DischargeDecrement(p, eta, dt, Q);
    if s < SoEMin then SoEMin else s
  }

  /** The charge sees the power only through its magnitude. */
  lemma ChargeStepEvenInPower(soe: real, p: real, eta: real, dt: real, Q: real, SoEMax: real)
    requires Q != 0.0
    ensures ChargeStep(soe, -p, eta, dt, Q, SoEMax) == ChargeStep(soe, p, eta, dt, Q, SoEMax)
  {
    assert -p * eta * dt == -(p * eta * dt);
  }

  /** The discharge sees the power only through its magnitude. */
  lemma DischargeStepEvenInPower(soe: real, p: real, eta: real, dt: real, Q: real, SoEMin: real)
    requires eta != 0.0 && Q != 0.0
    ensures DischargeStep(soe, -p, eta, dt, Q, SoEMin) == DischargeStep(soe, p, eta, dt, Q, SoEMin)
  {
    assert -p / eta * dt == -(p / eta * dt);
  }

  /** Dividing by eta and multiplying back by eta cancels. */
  lemma DivideThenScale(p: real, eta: real, dt: real)
    requires eta != 0.0
    ensures (p / eta * dt) * eta == p * dt
  {
    assert p / eta * eta == p;
  }

  /** From d·e = u it follows that |d|·e² = |u·e|. */
  lemma AbsScaledBySquare(d: real, e: real, u: real)
    requires d * e == u
    ensures Abs(d) * (e * e) == Abs(u * e)
  {
    AbsOfProduct(d, e);
    AbsOfProduct(u, e);
    var ad, ae, au := Abs(d), Abs(e), Abs(u);
    assert ae * ae == e * e;
    assert ad * ae == au;
    assert ad * (ae * ae) == au * ae;
  }

  /** Dividing by Q commutes with scaling. */
  lemma DivideCommutesWithScale(a: real, k: real, Q: real)
    requires Q != 0.0
    ensures (a / Q) * k == (a * k) / Q
  {
  }

  /** The arithmetic of the next lemma: |p/eta·dt|/Q·eta² = |p·eta·dt|/Q. */
  lemma EtaSquaredArithmetic(p: real, eta: real, dt: real, Q: real)
    requires eta != 0.0 && Q != 0.0
    ensures Abs(p / eta * dt) / Q * (eta * eta) == Abs(p * eta * dt) / Q
  {
    DivideThenScale(p, eta, dt);
    AbsScaledBySquare(p / eta * dt, eta, p * dt);
    assert p * dt * eta == p * eta * dt;
    DivideCommutesWithScale(Abs(p / eta * dt), eta * eta, Q);
  }

  /** The efficiency is paid on both legs: the same power takes out eta^-2 times what it puts in. */
  lemma DischargeCostsEtaSquared(p: real, eta: real, dt: real, Q: real)
    requires eta != 0.0 && Q != 0.0
    ensures DischargeDecrement(p, eta, dt, Q) * (eta * eta) == ChargeIncrement(p, eta, dt, Q)
  {
    EtaSquaredArithmetic(p, eta, dt, Q);
  }

  /** Without clamping, discharging with p * eta^2 undoes charging with p exactly. */
  lemma ChargeThenDischargeRoundTrip(soe: real, p: real, eta: real, dt: real, Q: real, SoEMin: real, SoEMax: real)
    requires eta != 0.0 && Q != 0.0
    requires SoEMin <= soe && soe + ChargeIncrement(p, eta, dt, Q) <= SoEMax
    ensures DischargeStep(ChargeStep(soe, p, eta, dt, Q, SoEMax), p * eta * eta, eta, dt, Q, SoEMin) == soe
  {
    assert p * eta * eta / eta == p * eta;
    assert DischargeDecrement(p * eta * eta, eta, dt, Q) == ChargeIncrement(p, eta, dt, Q);
  }

  /**
   * Charging lowers a state of energy that starts above SoEMax, which the
   * constructor does not rule out: monotonicity needs soe <= SoEMax.
   */
  lemma ChargeLowersOutOfRangeSoE(soe: real, p: real, eta: real, dt: real, Q: real, SoEMax: real)
    requires 0.0 < Q && SoEMax < soe
    ensures ChargeStep(soe, p, eta, dt, Q, SoEMax) == SoEMax < soe
  {
  }

  /**
   * Discharging raises a state of energy that starts below SoEMin, which the
   * constructor does not rule out: the discharge's monotonicity needs SoEMin <= soe.
   */
  lemma DischargeRaisesOutOfRangeSoE(soe: real, p: real, eta: real, dt: real, Q: real, SoEMin: real)
    requires eta != 0.0 && 0.0 < Q && soe < SoEMin
    ensures DischargeStep(soe, p, eta, dt, Q, SoEMin) == SoEMin > soe
  {
  }

  /** Charging 2 kW for an hour into a 10 kWh store at eta = 0.95 from 0.5 overshoots and clamps at 0.9. */
  lemma ChargeScenarioClamps()
    ensures ChargeIncrement(2.0, 0.95, 3600.0, 10.0) == 684.0
    ensures ChargeStep(0.5, 2.0, 0.95, 3600.0, 10.0, 0.9) == 0.9
  {
  }

  /** One call of the linear engine: a charge or a discharge at some power for some timestep. */
  datatype Step = Charge(power: real, dt: real) | Discharge(power: real, dt: real)

  /** SoE after one step from soe. */
  function StepSoE(soe: real, s: Step, eta: real, Q: real, SoEMin: real, SoEMax: real): (r: real)
    requires eta != 0.0 && Q != 0.0
    ensures s.Charge? ==> r <= SoEMax
    ensures s.Discharge? ==> SoEMin <= r
    ensures 0.0 < Q && SoEMin <= soe <= SoEMax ==> SoEMin <= r <= SoEMax
  {
    match s
    case Charge(p, dt) => ChargeStep(soe, p, eta, dt, Q, SoEMax)
    case Discharge(p, dt) => DischargeStep(soe, p, eta, dt, Q, SoEMin)
  }

  /**
   * SoE after the steps of a simulation horizon, applied in order from soe.
   * A horizon that starts within [SoEMin, SoEMax] stays there.
   */
  function Simulate(soe: real, steps: seq<Step>, eta: real, Q: real, SoEMin: real, SoEMax: real): (r: real)
    requires eta != 0.0 && Q != 0.0
    ensures 0.0 < Q && SoEMin <= soe <= SoEMax ==> SoEMin <= r <= SoEMax
    decreases |steps|
  {
    if |steps| == 0 then soe
    else Simulate(StepSoE(soe, steps[0], eta, Q, SoEMin, SoEMax), steps[1..], eta, Q, SoEMin, SoEMax)
  }

  /** Running two horizons one after the other is running their concatenation. */
  lemma {:induction false} SimulateAppend(soe: real, s1: seq<Step>, s2: seq<Step>, eta: real, Q: real, SoEMin: real, SoEMax: real)
    requires eta != 0.0 && Q != 0.0
    ensures Simulate(soe, s1 + s2, eta, Q, SoEMin, SoEMax)
         == Simulate(Simulate(soe, s1, eta, Q, SoEMin, SoEMax), s2, eta, Q, SoEMin, SoEMax)
    decreases |s1|
  {
    if |s1| == 0 {
      assert s1 + s2 == s2;
    } else {
      assert (s1 + s2)[1..] == s1[1..] + s2;
      SimulateAppend(StepSoE(soe, s1[0], eta, Q, SoEMin, SoEMax), s1[1..], s2, eta, Q, SoEMin, SoEMax);
    }
  }

  /** A horizon of charges only never lowers an SoE that starts at or below SoEMax, and ends at or below SoEMax. */
  lemma {:induction false} ChargesNeverLower(soe: real, steps: seq<Step>, eta: real, Q: real, SoEMin: real, SoEMax: real)
    requires eta != 0.0 && 0.0 < Q && soe <= SoEMax
    requires forall k :: 0 <= k < |steps| ==> steps[k].Charge?
    ensures soe <= Simulate(soe, steps, eta, Q, SoEMin, SoEMax) <= SoEMax
    decreases |steps|
  {
    if |steps| > 0 {
      var next := StepSoE(soe, steps[0], eta, Q, SoEMin, SoEMax);
      assert steps[0].Charge?;
      forall k | 0 <= k < |steps[1..]| ensures steps[1..][k].Charge? {
        assert steps[1..][k] == steps[k + 1];
      }
      ChargesNeverLower(next, steps[1..], eta, Q, SoEMin, SoEMax);
    }
  }

  /** A horizon of discharges only never raises an SoE that starts at or above SoEMin, and ends at or above SoEMin. */
  lemma {:induction false} DischargesNeverRaise(soe: real, steps: seq<Step>, eta: real, Q: real, SoEMin: real, SoEMax: real)
    requires eta != 0.0 && 0.0 < Q && SoEMin <= soe
    requires forall k :: 0 <= k < |steps| ==> steps[k].Discharge?
    ensures SoEMin <= Simulate(soe, steps, eta, Q, SoEMin, SoEMax) <= soe
    decreases |steps|
  {
    if |steps| > 0 {
      var next := StepSoE(soe, steps[0], eta, Q, SoEMin, SoEMax);
      assert steps[0].Discharge?;
      forall k | 0 <= k < |steps[1..]| ensures steps[1..][k].Discharge? {
        assert steps[1..][k] == steps[k + 1];
      }
      DischargesNeverRaise(next, steps[1..], eta, Q, SoEMin, SoEMax);
    }
  }

  class ESS {
    const model: string
    /** Capacity in kWh. */
    const Q: real
    /** Largest charging or discharging power in kW; stored only. */
    const pSMax: real
    /** Coefficients of the empirical wear cost model. */
    const a: real
    const b: real
    const B: real
    /** Efficiency. */
    const eta: real
    const SoE0: real
    /** Nominal voltage in V and nominal capacity, used by the circuit engine. */
    const Vn: real
    const SoEMin: real
    const SoEMax: real
    const Qn: real
    /** State of energy: the only field the updates change. */
    var SoE: real

    ghost predicate InBounds()
      reads this
    {
      SoEMin <= SoE <= SoEMax
    }

    /** Stores every parameter unchanged and starts at SoE0; nothing is validated. */
    constructor (model: string, Q: real, pSMax: real, a: real, b: real, B: real, eta: real,
                 SoE0: real, Vn: real, SoEMin: real, SoEMax: real, Qn: real)
      ensures this.model == model && this.Q == Q && this.pSMax == pSMax
      ensures this.a == a && this.b == b && this.B == B && this.eta == eta
      ensures this.SoE0 == SoE0 && this.Vn == Vn && this.SoEMin == SoEMin
      ensures this.SoEMax == SoEMax && this.Qn == Qn
      ensures SoE == SoE0
    {
      this.model := model;
      this.Q := Q;
      this.pSMax := pSMax;
      this.a := a;
      this.b := b;
      this.B := B;
      this.eta := eta;
      this.SoE0 := SoE0;
      this.Vn := Vn;
      this.SoEMin := SoEMin;
      this.SoEMax := SoEMax;
      SoE := SoE0;
      this.Qn := Qn;
    }

    /**
     * Linear charge. The excess is computed after SoE has been clamped to
     * SoEMax, so it is always zero. pGL is not used.
     */
    method UpdateSoECh(pGLS: real, pGL: real, deltaT: real) returns (excess: real)
      requires Q != 0.0
      modifies this`SoE
      ensures SoE == ChargeStep(old(SoE), pGLS, eta, deltaT, Q, SoEMax)
      ensures excess == 0.0
      ensures 0.0 < Q && old(InBounds()) ==> InBounds()
    {
      var en := ChargeIncrement(pGLS, eta, deltaT, Q);
      SoE := SoE + en;
      excess := 0.0;
      if SoE > SoEMax {
        SoE := SoEMax;
        excess := EnergyGap(SoEMax, SoE, Q);
      }
    }

    /** Linear discharge. The lack is computed after the clamp to SoEMin, so it is always zero. */
    method UpdateSoEDch(pGLS: real, deltaT: real) returns (lack: real)
      requires eta != 0.0 && Q != 0.0
      modifies this`SoE
      ensures SoE == DischargeStep(old(SoE), pGLS, eta, deltaT, Q, SoEMin)
      ensures lack == 0.0
      ensures 0.0 < Q && old(InBounds()) ==> InBounds()
    {
      var en := DischargeDecrement(pGLS, eta, deltaT, Q);
      SoE := SoE - en;
      lack := 0.0;
      if SoE < SoEMin {
        SoE := SoEMin;
        lack := EnergyGap(SoEMin, SoE, Q);
      }
    }

    /** Wear rate W(soe) = (B / (2 Q eta)) * (b * (1 - soe)^(b - 1)) / a. */
    function WearRate(m: Library, soe: real): (w: real)
      reads this
      requires Q * eta != 0.0 && a != 0.0
      ensures B == 0.0 || b == 0.0 ==> w == 0.0
    {
      (B / (2.0 * Q * eta)) * (b * m.pow(1.0 - soe, b - 1.0)) / a
    }

    /** Trapezoidal wear cost of a step from SoEPrev to the current SoE at power pSk. */
    function GetWearCost(m: Library, SoEPrev: real, pSk: real, deltaT: real): (c: real)
      reads this
      requires Q * eta != 0.0 && a != 0.0
      ensures pSk == 0.0 || deltaT == 0.0 ==> c == 0.0
      ensures SoEPrev == SoE ==> c == deltaT * WearRate(m, SoE) * Abs(pSk)
    {
      ((deltaT / 2.0) * (WearRate(m, SoEPrev) + WearRate(m, SoE))) * Abs(pSk)
    }
  }

  /** The wear cost depends on the power only through its magnitude. */
  lemma WearCostEvenInPower(e: ESS, m: Library, SoEPrev: real, pSk: real, deltaT: real)
    requires e.Q * e.eta != 0.0 && e.a != 0.0
    ensures e.GetWearCost(m, SoEPrev, -pSk, deltaT) == e.GetWearCost(m, SoEPrev, pSk, deltaT)
  {
  }
}
