/**
 * The equivalent-circuit engine (ESS_package/ESS_empirical.py): a Thevenin
 * circuit whose parameters come from one of two fixed coefficient tables,
 * a terminal voltage, and a quadratic regression from that voltage back to
 * a state of charge, with sentinel values where the arithmetic faults.
 */
module EssEmpirical {
  import opened Numerics
  import Ess

  /** C-rate used when the residual capacity is zero. */
  const RateSentinel: real := 1000.0
  /** Terminal voltage, and state of charge, used when the computation faults. */
  const Sentinel: real := 10.0
  /** Coefficients of the voltage-to-charge regression c2 * v^2 + c3 * v + q. */
  const C2: real := 0.03
  const C3: real := 1.08
  const Intercept: real := -4.15

  /** Circuit coefficients p0 .. p30 used while charging, in rows of eight. */
  const ChargeTable: seq<real> :=
    [0.0, 0.0, 0.0, 1.83, 0.0, 0.0, 0.0, 1.59]
    + [0.0, 1.02, 1.33, 0.0, 0.0, 0.0, 0.66, 0.0]
    + [0.0, 7.29, 5.23, 0.0, 0.0, 4.42, 0.0, 0.0]
    + [5.91, 0.0, 0.0, 6.34, 0.0, 0.0, 0.0]
  /** Circuit coefficients p0 .. p30 used while discharging, in rows of eight. */
  const DischargeTable: seq<real> :=
    [0.0, 0.0, 0.0, 0.0, 0.0, 0.0, 0.0, 0.0]
    + [4.15, 4.13, 0.0, 0.0, 2.90, 0.86, 0.0, 0.0]
    + [0.0, 0.0, 0.12, 0.0, 0.0, 0.0, 0.0, 0.0]
    + [2.31, 0.0, 0.0, 3.13, -0.36, 0.0, 0.0]

  /** Current i, C-rate x and residual capacity Qr. */
  datatype Quantities = Quantities(i: real, x: real, Qr: real)

  /** The quantities derived from the power p at state of energy soe. */
  function ReqQuant(Vn: real, Qn: real, soe: real, p: real): (q: Quantities)
    requires Vn != 0.0
    ensures q.i == p / Vn && q.Qr == soe * Qn
    ensures 0.0 <= q.x
    ensures q.Qr == 0.0 ==> q.x == RateSentinel
    ensures q.Qr != 0.0 ==> q.x == Abs(q.i / q.Qr)
  {
    var i := p / Vn;
    var Qr := soe * Qn;
    var rate := if Qr == 0.0 then RateSentinel else Abs(i / Qr);
    Quantities(i, rate, Qr)
  }

  /** Away from the sentinel the rate is the C-rate |i| / |Qr|, and it is zero only for zero current. */
  lemma RateIsCRate(Vn: real, Qn: real, soe: real, p: real)
    requires Vn != 0.0
    ensures var q := ReqQuant(Vn, Qn, soe, p);
            q.Qr != 0.0 ==> q.x * Abs(q.Qr) == Abs(q.i) && (q.x == 0.0 <==> p == 0.0)
  {
    var q := ReqQuant(Vn, Qn, soe, p);
    if q.Qr != 0.0 {
      AbsOfProduct(q.i / q.Qr, q.Qr);
      assert q.i / q.Qr * q.Qr == q.i;
      assert q.i == 0.0 <==> p == 0.0;
    }
  }

  /** The coefficient table for current i: charging iff i >= 0. */
  function Table(i: real): (t: seq<real>)
    ensures |t| == 31
    ensures t == ChargeTable <==> 0.0 <= i
    ensures t == DischargeTable <==> i < 0.0
  {
    assert ChargeTable[3] != DischargeTable[3];
    if i >= 0.0 then ChargeTable else DischargeTable
  }

  /** Series resistance, polarization resistance, polarization capacitance and open-circuit voltage. */
  datatype Circuit = Circuit(R0: real, Rp: real, Cp: real, Vocv: real)

  /** The circuit parameters at C-rate x and working state of charge y, for coefficient table t. */
  function CircuitParams(m: Library, t: seq<real>, x: real, y: real): (c: Circuit)
    requires |t| == 31
    ensures x == 0.0 ==> c.R0 == t[0] * m.exp(-t[3] * y) + t[4]
    ensures x == 0.0 ==> c.Rp == t[7] * m.exp(-t[10] * y) + t[11]
    ensures x == 0.0 ==> c.Cp == -t[14] * m.exp(-t[17] * y) + t[18]
  {
    Circuit(
      R0 := (t[0] + t[1] * x + t[2] * (x * x)) * m.exp(-t[3] * y) + (t[4] + t[5] * x + t[6] * (x * x)),
      Rp := (t[7] + t[8] * x + t[9] * (x * x)) * m.exp(-t[10] * y) + (t[11] + t[12] * x + t[13] * (x * x)),
      Cp := -(t[14] + t[15] * x + t[16] * (x * x)) * m.exp(-t[17] * y) + (t[18] + t[19] * x + t[20] * (x * x)),
      Vocv := (t[21] + t[22] * x + t[23] * (x * x)) * m.exp(-t[24] * y)
              + (t[25] + t[26] * y + t[27] * (y * y) + t[28] * (y * y * y)) - t[29] * x + t[30] * (x * x))
  }

  /** The charging coefficients one by one. */
  lemma ChargeTableEntries()
    ensures var t := ChargeTable;
      && t[0] == 0.0 && t[1] == 0.0 && t[2] == 0.0 && t[3] == 1.83 && t[4] == 0.0 && t[5] == 0.0 && t[6] == 0.0
      && t[7] == 1.59 && t[8] == 0.0 && t[9] == 1.02 && t[10] == 1.33 && t[11] == 0.0 && t[12] == 0.0 && t[13] == 0.0
      && t[14] == 0.66 && t[15] == 0.0 && t[16] == 0.0 && t[17] == 7.29 && t[18] == 5.23 && t[19] == 0.0 && t[20] == 0.0
      && t[21] == 4.42 && t[22] == 0.0 && t[23] == 0.0 && t[24] == 5.91 && t[25] == 0.0 && t[26] == 0.0
      && t[27] == 6.34 && t[28] == 0.0 && t[29] == 0.0 && t[30] == 0.0
  {
  }

  /** With the charging table the circuit reduces to these closed forms. */
  lemma ChargeCircuitClosedForm(m: Library, x: real, y: real)
    ensures CircuitParams(m, ChargeTable, x, y)
         == Circuit(0.0, (1.59 + 1.02 * (x * x)) * m.exp(-1.33 * y), 5.23 - 0.66 * m.exp(-7.29 * y),
                    4.42 * m.exp(-5.91 * y) + 6.34 * (y * y))
  {
    ChargeTableEntries();
  }

  /** The discharging coefficients one by one. */
  lemma DischargeTableEntries()
    ensures var t := DischargeTable;
      && t[0] == 0.0 && t[1] == 0.0 && t[2] == 0.0 && t[3] == 0.0 && t[4] == 0.0 && t[5] == 0.0 && t[6] == 0.0
      && t[7] == 0.0 && t[8] == 4.15 && t[9] == 4.13 && t[10] == 0.0 && t[11] == 0.0 && t[12] == 2.90 && t[13] == 0.86
      && t[14] == 0.0 && t[15] == 0.0 && t[16] == 0.0 && t[17] == 0.0 && t[18] == 0.12 && t[19] == 0.0 && t[20] == 0.0
      && t[21] == 0.0 && t[22] == 0.0 && t[23] == 0.0 && t[24] == 2.31 && t[25] == 0.0 && t[26] == 0.0
      && t[27] == 3.13 && t[28] == -0.36 && t[29] == 0.0 && t[30] == 0.0
  {
  }

  /** With the discharging table the exponentials drop out: Rp = 7.05 x + 4.99 x^2 and Cp = 0.12. */
  lemma DischargeCircuitClosedForm(m: Library, x: real, y: real)
    requires Lawful(m)
    ensures CircuitParams(m, DischargeTable, x, y)
         == Circuit(0.0, 7.05 * x + 4.99 * (x * x), 0.12, 3.13 * (y * y) - 0.36 * (y * y * y))
  {
    DischargeTableEntries();
    assert -DischargeTable[10] * y == 0.0;
  }

  /** The series resistance vanishes with either table. */
  lemma SeriesResistanceVanishes(m: Library, i: real, x: real, y: real)
    ensures CircuitParams(m, Table(i), x, y).R0 == 0.0
  {
  }

  /**
   * The terminal-voltage expression raises: Qr / Cp divides by zero, so does
   * -dt / (Rp * Cp), or math.exp overflows.
   */
  predicate VtermFaults(m: Library, c: Circuit, dt: real): (b: bool)
    ensures c.Cp == 0.0 || c.Rp == 0.0 ==> b
    ensures !b ==> c.Cp != 0.0 && c.Rp != 0.0 && !m.expOverflows(-dt / (c.Rp * c.Cp))
  {
    c.Cp == 0.0 || c.Rp * c.Cp == 0.0 || m.expOverflows(-dt / (c.Rp * c.Cp))
  }

  /** The terminal voltage, or Sentinel where its expression raises. */
  function Vterm(m: Library, i: real, Qr: real, c: Circuit, dt: real): (v: real)
    ensures c.Cp == 0.0 || c.Rp * c.Cp == 0.0 ==> v == Sentinel
    ensures VtermFaults(m, c, dt) ==> v == Sentinel
  {
    if VtermFaults(m, c, dt) then Sentinel
    else (Qr / c.Cp + i * c.Rp) * m.exp(-dt / (c.Rp * c.Cp)) + c.Vocv - i * (c.R0 + c.Rp)
  }

  /** A product of a non-positive and a non-negative factor is not positive. */
  lemma OppositeSignsProduct(a: real, b: real)
    ensures a <= 0.0 <= b ==> a * b <= 0.0
  {
    if a <= 0.0 <= b {
      assert 0.0 <= (-a) * b;
    }
  }

  /**
   * The regression polynomial c2 * v2 + c3 * v + q, given v and its square v2.
   * Its roots lie just outside -39.5 and 3.5: the unrounded value is negative
   * on [-39.5, 3.5], and positive from 3.6 V up and at or below -39.6 V.
   */
  function Quadratic(v2: real, v: real): (r: real)
    ensures v2 == v * v && -39.5 <= v <= 3.5 ==> r < 0.0
    ensures v2 == v * v && (3.6 <= v || v <= -39.6) ==> 0.0 < r
  {
    OppositeSignsProduct(v - 3.5, v + 39.5);
    C2 * v2 + C3 * v + Intercept
  }

  /** First correction: a negative value is replaced by its square. */
  function NegativeCorrection(v: real): (r: real)
    ensures 0.0 <= v ==> r == v
    ensures v < 0.0 ==> r == v * v
    ensures 0.0 <= r || v == r
  {
    if v < 0.0 then Abs(v) * Abs(v) else v
  }

  /** Second correction: a value above 1 is replaced by the square of its distance to 1. */
  function OverCorrection(v: real): (r: real)
    ensures v <= 1.0 ==> r == v
    ensures 1.0 < v ==> 0.0 <= r && r == (v - 1.0) * (v - 1.0)
  {
    if v > 1.0 then Abs(v - 1.0) * Abs(v - 1.0) else v
  }

  /**
   * One of the three squarings of the regression overflows: the square of
   * the voltage, of a negative rounded value, or of the distance to 1 of a
   * corrected value above 1.
   */
  predicate RegressFaults(m: Library, vterm: real): (b: bool)
    ensures !b ==> Square(m, vterm) == Some(vterm * vterm)
    ensures (forall v :: !m.squareOverflows(v)) ==> !b
  {
    || m.squareOverflows(vterm)
    || (var s0 := m.round2(Quadratic(vterm * vterm, vterm));
        || (s0 < 0.0 && m.squareOverflows(Abs(s0)))
        || (NegativeCorrection(s0) > 1.0 && m.squareOverflows(Abs(NegativeCorrection(s0) - 1.0))))
  }

  /**
   * The state of charge regressed from the terminal voltage: round to two
   * decimals, then both corrections in sequence; Sentinel where one of the
   * three squarings overflows.
   */
  function Regress(m: Library, vterm: real): (soc: real)
    ensures 0.0 <= soc
    ensures RegressFaults(m, vterm) ==> soc == Sentinel
  {
    match Square(m, vterm)
    case None => Sentinel
    case Some(v2) =>
      var s0 := m.round2(Quadratic(v2, vterm));
      if s0 < 0.0 && m.squareOverflows(Abs(s0)) then Sentinel
      else
        var s1 := NegativeCorrection(s0);
        if s1 > 1.0 && m.squareOverflows(Abs(s1 - 1.0)) then Sentinel
        else OverCorrection(s1)
  }

  /** Where none of its squarings overflows, the regression is the rounded quadratic put through both corrections. */
  lemma RegressWithoutOverflow(m: Library, vterm: real)
    requires !RegressFaults(m, vterm)
    ensures Regress(m, vterm) == OverCorrection(NegativeCorrection(m.round2(Quadratic(vterm * vterm, vterm))))
  {
    assert Square(m, vterm) == Some(vterm * vterm);
  }

  /** The corrections are not exclusive: -2 is squared to 4, which is then mapped to 9. */
  lemma CorrectionsCompose()
    ensures NegativeCorrection(-2.0) == 4.0
    ensures OverCorrection(NegativeCorrection(-2.0)) == 9.0
  {
  }

  /** One run of the equivalent-circuit model: the new state of charge, never negative. */
  function ComputeECM(m: Library, i: real, x: real, y: real, Qr: real, dt: real): (soc: real)
    ensures 0.0 <= soc
    ensures VtermFaults(m, CircuitParams(m, Table(i), x, y), dt) ==> soc == Regress(m, Sentinel)
    ensures RegressFaults(m, Vterm(m, i, Qr, CircuitParams(m, Table(i), x, y), dt)) ==> soc == Sentinel
  {
    Regress(m, Vterm(m, i, Qr, CircuitParams(m, Table(i), x, y), dt))
  }

  /**
   * A fault in the terminal voltage does not make the result 10: the
   * sentinel voltage 10 regresses to 9.65, which the second correction maps
   * to (9.65 - 1)^2.
   */
  lemma VoltageFaultRegression(m: Library, i: real, x: real, y: real, Qr: real, dt: real)
    requires VtermFaults(m, CircuitParams(m, Table(i), x, y), dt)
    requires m.round2(9.65) == 9.65 && !m.squareOverflows(10.0) && !m.squareOverflows(8.65)
    ensures ComputeECM(m, i, x, y, Qr, dt) == 74.8225
  {
    assert Quadratic(Sentinel * Sentinel, Sentinel) == 9.65;
    assert Abs(NegativeCorrection(9.65) - 1.0) == 8.65;
  }

  /** A discharge at rate zero has Rp = 0, so the terminal voltage falls to the sentinel. */
  lemma DischargeZeroRateFaults(m: Library, i: real, y: real, Qr: real, dt: real)
    requires i < 0.0
    ensures CircuitParams(m, Table(i), 0.0, y).Rp * CircuitParams(m, Table(i), 0.0, y).Cp == 0.0
    ensures Vterm(m, i, Qr, CircuitParams(m, Table(i), 0.0, y), dt) == Sentinel
  {
  }

  /**
   * A discharge reached through ReqQuant never divides by zero: the rate is
   * positive, so Rp * Cp > 0, and for dt >= 0 the exponent is not positive.
   */
  lemma DischargeVtermDefined(m: Library, Vn: real, Qn: real, soe: real, p: real, y: real, dt: real)
    requires Lawful(m) && Vn != 0.0 && p / Vn < 0.0 && 0.0 <= dt
    ensures var q := ReqQuant(Vn, Qn, soe, p);
            !VtermFaults(m, CircuitParams(m, Table(q.i), q.x, y), dt)
  {
    var q := ReqQuant(Vn, Qn, soe, p);
    assert 0.0 < q.x by {
      RateIsCRate(Vn, Qn, soe, p);
      assert q.i != 0.0;
    }
    DischargeCircuitClosedForm(m, q.x, y);
    var c := CircuitParams(m, Table(q.i), q.x, y);
    assert c.Cp == 0.12;
    assert 0.0 < q.x * q.x;
    assert 0.0 < c.Rp;
    assert 0.0 < c.Rp * c.Cp;
    assert -dt / (c.Rp * c.Cp) <= 0.0;
  }

  /**
   * The value the charge assigns to SoE before clamping: the circuit model
   * run at the coulomb-counted working state soe + (i / Qn) * dt.
   */
  function ChargeECM(m: Library, Vn: real, Qn: real, soe: real, p: real, dt: real): (s: real)
    requires Vn != 0.0 && Qn != 0.0
    ensures 0.0 <= s
  {
    var q := ReqQuant(Vn, Qn, soe, p);
    ComputeECM(m, q.i, q.x, soe + (q.i / Qn) * dt, q.Qr, dt)
  }

  /** For u, dt >= 0 and Qn nonzero, ((u / Qn) * dt) / Qn = u * dt / Qn^2 is not negative. */
  lemma DepthOfDischargeNonNegative(u: real, Qn: real, dt: real)
    requires Qn != 0.0
    ensures 0.0 <= u && 0.0 <= dt ==> 0.0 <= ((u / Qn) * dt) / Qn
  {
    if 0.0 <= u && 0.0 <= dt {
      if 0.0 < Qn {
        assert 0.0 <= u / Qn;
        assert 0.0 <= (u / Qn) * dt;
      } else {
        assert u / Qn <= 0.0;
        assert (u / Qn) * dt <= 0.0;
      }
    }
  }

  /** The discharge's working state 1 - DoD, with the depth of discharge DoD = ((|i| / Qn) * dt) / Qn. */
  function DischargeWorkingState(i: real, Qn: real, dt: real): (y: real)
    requires Qn != 0.0
    ensures 0.0 <= dt ==> y <= 1.0
    ensures i == 0.0 || dt == 0.0 ==> y == 1.0
  {
    DepthOfDischargeNonNegative(Abs(i), Qn, dt);
    1.0 - ((Abs(i) / Qn) * dt) / Qn
  }

  /**
   * The terminal voltage of a discharge, at its working state: an
   * abbreviation for the contract of DischargeECM and the hypotheses of the
   * DischargeKeeps lemmas.
   */
  function DischargeVoltage(m: Library, q: Quantities, Qn: real, dt: real): real
    requires Qn != 0.0
  {
    Vterm(m, q.i, q.Qr, CircuitParams(m, Table(q.i), q.x, DischargeWorkingState(q.i, Qn, dt)), dt)
  }

  /**
   * The value the discharge assigns to SoE before clamping: the circuit model
   * run at 1 - DoD, with the depth of discharge DoD = ((|i| / Qn) * dt) / Qn.
   */
  function DischargeECM(m: Library, Vn: real, Qn: real, soe: real, p: real, dt: real): (s: real)
    requires Vn != 0.0 && Qn != 0.0
    ensures 0.0 <= s
    ensures s == Regress(m, DischargeVoltage(m, ReqQuant(Vn, Qn, soe, p), Qn, dt))
  {
    var q := ReqQuant(Vn, Qn, soe, p);
    ComputeECM(m, q.i, q.x, DischargeWorkingState(q.i, Qn, dt), q.Qr, dt)
  }

  /** SoE after an equivalent-circuit charge: the model's result, clamped at SoEMax. */
  function ChargedSoE(m: Library, Vn: real, Qn: real, SoEMax: real, soe: real, p: real, dt: real): (r: real)
    requires Vn != 0.0 && Qn != 0.0
    ensures r <= SoEMax
    ensures r == ChargeECM(m, Vn, Qn, soe, p, dt) <==> ChargeECM(m, Vn, Qn, soe, p, dt) <= SoEMax
    ensures r == SoEMax || r == ChargeECM(m, Vn, Qn, soe, p, dt)
    ensures 0.0 <= SoEMax ==> 0.0 <= r
  {
    var s := ChargeECM(m, Vn, Qn, soe, p, dt);
    if s > SoEMax then SoEMax else s
  }

  /**
   * SoE after an equivalent-circuit discharge. The clamp compares with
   * SoEMax but assigns SoEMin: every result below SoEMax becomes SoEMin,
   * every other result is kept, however large.
   */
  function DischargedSoE(m: Library, Vn: real, Qn: real, SoEMin: real, SoEMax: real, soe: real, p: real, dt: real): (r: real)
    requires Vn != 0.0 && Qn != 0.0
    ensures r == SoEMin <==> DischargeECM(m, Vn, Qn, soe, p, dt) < SoEMax || DischargeECM(m, Vn, Qn, soe, p, dt) == SoEMin
    ensures r != SoEMin ==> r == DischargeECM(m, Vn, Qn, soe, p, dt) && SoEMax <= r
    ensures SoEMin <= SoEMax ==> SoEMin <= r
    ensures 0.0 <= SoEMin ==> 0.0 <= r
  {
    var s := DischargeECM(m, Vn, Qn, soe, p, dt);
    if s < SoEMax then SoEMin else s
  }

  /**
   * Whatever the library: when a discharge's regression overflows, the
   * sentinel 10 is kept in SoE as soon as SoEMax is at most 10.
   */
  lemma DischargeKeepsRegressFault(m: Library, Vn: real, Qn: real, SoEMin: real, SoEMax: real, soe: real, p: real, dt: real)
    requires Vn != 0.0 && Qn != 0.0 && SoEMax <= Sentinel
    requires RegressFaults(m, DischargeVoltage(m, ReqQuant(Vn, Qn, soe, p), Qn, dt))
    ensures DischargedSoE(m, Vn, Qn, SoEMin, SoEMax, soe, p, dt) == Sentinel
  {
  }

  /**
   * Whatever the library: a discharge whose rounded regression is -2.88 and
   * whose squarings do not overflow ends at ((-2.88)^2 - 1)^2 = 53.20827136,
   * far above SoEMax, and that value is kept.
   */
  lemma DischargeKeepsCorrectedValue(m: Library, Vn: real, Qn: real, SoEMin: real, SoEMax: real, soe: real, p: real, dt: real)
    requires Vn != 0.0 && Qn != 0.0 && SoEMax <= 53.20827136
    requires var v := DischargeVoltage(m, ReqQuant(Vn, Qn, soe, p), Qn, dt);
      !RegressFaults(m, v) && m.round2(Quadratic(v * v, v)) == -2.88
    ensures DischargedSoE(m, Vn, Qn, SoEMin, SoEMax, soe, p, dt) == 53.20827136
  {
    RegressWithoutOverflow(m, DischargeVoltage(m, ReqQuant(Vn, Qn, soe, p), Qn, dt));
    assert NegativeCorrection(-2.88) == 8.2944;
    assert OverCorrection(8.2944) == 53.20827136;
  }

  /**
   * An invented library, not Python's pow: every square overflows, so the
   * regression always yields the sentinel. A witness for the sentinel branch.
   */
  function OverflowingSquares(): Library {
    Library(r => 1.0, (u, e) => 1.0, v => v, r => false, v => true)
  }

  /**
   * An invented library, not Python's round: rounding always gives 0.5.
   * A witness for the branch that assigns SoEMin.
   */
  function RoundsToHalf(): Library {
    Library(r => 1.0, (u, e) => 1.0, v => 0.5, r => false, v => false)
  }

  /**
   * Both branches of the discharge clamp are reachable from one input: under
   * the invented OverflowingSquares the sentinel is kept above SoEMax, and
   * under the invented RoundsToHalf the mid-range 0.5 becomes SoEMin.
   */
  lemma DischargeLeavesBounds()
    ensures DischargedSoE(OverflowingSquares(), 48.0, 20.0, 0.1, 0.9, 0.5, -2.0, 3600.0) == Sentinel
    ensures DischargedSoE(RoundsToHalf(), 48.0, 20.0, 0.1, 0.9, 0.5, -2.0, 3600.0) == 0.1
  {
    var q := ReqQuant(48.0, 20.0, 0.5, -2.0);
    var dod := ((Abs(q.i) / 20.0) * 3600.0) / 20.0;
    var c1 := CircuitParams(OverflowingSquares(), Table(q.i), q.x, 1.0 - dod);
    assert Regress(OverflowingSquares(), Vterm(OverflowingSquares(), q.i, q.Qr, c1, 3600.0)) == Sentinel;
    var c2 := CircuitParams(RoundsToHalf(), Table(q.i), q.x, 1.0 - dod);
    assert Regress(RoundsToHalf(), Vterm(RoundsToHalf(), q.i, q.Qr, c2, 3600.0)) == 0.5;
  }

  class ESSEmpirical {
    /** The superclass state: configuration and the state of energy. */
    const parent: Ess.ESS

    /** Passes the arguments on to the superclass constructor unchanged. */
    constructor (model: string, Q: real, pSMax: real, a: real, b: real, B: real, eta: real,
                 SoE0: real, Vn: real, SoEMin: real, SoEMax: real, Qn: real)
      ensures fresh(parent)
      ensures parent.model == model && parent.Q == Q && parent.pSMax == pSMax
      ensures parent.a == a && parent.b == b && parent.B == B && parent.eta == eta
      ensures parent.SoE0 == SoE0 && parent.Vn == Vn && parent.SoEMin == SoEMin
      ensures parent.SoEMax == SoEMax && parent.Qn == Qn
      ensures parent.SoE == SoE0
    {
      parent := new Ess.ESS(model, Q, pSMax, a, b, B, eta, SoE0, Vn, SoEMin, SoEMax, Qn);
    }

    /**
     * Charge: the circuit model is run at the coulomb-counted working state
     * SoE + (i / Qn) * dt and its result clamped at SoEMax; the excess,
     * computed after the clamp, is zero. pGL is not used.
     */
    method UpdateSoECh(m: Library, pGLS: real, pGL: real, deltaT: real) returns (excess: real)
      requires parent.Vn != 0.0 && parent.Qn != 0.0
      modifies parent`SoE
      ensures parent.SoE == ChargedSoE(m, parent.Vn, parent.Qn, parent.SoEMax, old(parent.SoE), pGLS, deltaT)
      ensures excess == 0.0
      ensures parent.SoE <= parent.SoEMax
    {
      parent.SoE := ChargeECM(m, parent.Vn, parent.Qn, parent.SoE, pGLS, deltaT);
      excess := 0.0;
      if parent.SoE > parent.SoEMax {
        parent.SoE := parent.SoEMax;
        excess := Ess.EnergyGap(parent.SoEMax, parent.SoE, parent.Q);
      }
    }

    /**
     * Discharge: the circuit model is run at 1 - DoD, DoD = ((|i| / Qn) * dt) / Qn,
     * and a result below SoEMax is replaced by SoEMin; the lack is zero.
     */
    method UpdateSoEDch(m: Library, pGLS: real, deltaT: real) returns (lack: real)
      requires parent.Vn != 0.0 && parent.Qn != 0.0
      modifies parent`SoE
      ensures parent.SoE == DischargedSoE(m, parent.Vn, parent.Qn, parent.SoEMin, parent.SoEMax, old(parent.SoE), pGLS, deltaT)
      ensures lack == 0.0
      ensures parent.SoE == parent.SoEMin || parent.SoEMax <= parent.SoE
      ensures parent.SoEMin <= parent.SoEMax ==> parent.SoEMin <= parent.SoE
    {
      parent.SoE := DischargeECM(m, parent.Vn, parent.Qn, parent.SoE, pGLS, deltaT);
      lack := 0.0;
      if parent.SoE < parent.SoEMax {
        parent.SoE := parent.SoEMin;
        lack := Ess.EnergyGap(parent.SoEMin, parent.SoE, parent.Q);
      }
    }

    /** The superclass wear cost, with its zero-power and flat-step properties. */
    function GetWearCost(m: Library, SoEPrev: real, pSk: real, deltaT: real): (c: real)
      reads parent
      requires parent.Q * parent.eta != 0.0 && parent.a != 0.0
      ensures c == parent.GetWearCost(m, SoEPrev, pSk, deltaT)
      ensures pSk == 0.0 || deltaT == 0.0 ==> c == 0.0
      ensures SoEPrev == parent.SoE ==> c == deltaT * parent.WearRate(m, parent.SoE) * Abs(pSk)
    {
      parent.GetWearCost(m, SoEPrev, pSk, deltaT)
    }
  }
}
