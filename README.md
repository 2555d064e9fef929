# ESS state machine in Dafny

This project models the energy storage system (ESS) package: a battery object
whose one piece of mutable state is its state of energy `SoE`, updated by
charge and discharge steps, together with a wear cost estimate. The package
has two engines.

- **Linear engine**, `ESS` and its pass-through subclass `ESS_linear`. A charge
  adds `|p·eta·dt| / Q` and clamps at `SoE_max`. A discharge subtracts
  `|(p/eta)·dt| / Q` and clamps at `SoE_min`.
- **Equivalent-circuit engine**, `ESS_empirical`. It derives a current, a
  C-rate and a residual capacity from the power. It picks one of two fixed
  31-entry coefficient tables by the sign of the current and evaluates a
  Thevenin circuit (`R0`, `Rp`, `Cp`, `Vocv`) and its terminal voltage. It
  turns that voltage back into a state of charge with a rounded quadratic
  regression and two corrections applied one after the other. Where the
  terminal-voltage or the regression expression faults, it substitutes the
  sentinel 10; a zero residual capacity gives the rate 1000, tested before
  the division. Other faults (a zero `V_n` or `Q_n`, an overflow while
  computing the circuit parameters) are not caught.

Layout:

- `numerics.dfy` (module `Numerics`): `Abs`, `Square`, and the `Library`
  bundle. The bundle holds the floating-point calls whose values the model
  does not compute: `math.exp`, `pow` with a real exponent, `round(·, 2)`,
  and the overflow conditions of `exp` and of squaring. Every operation that
  needs them takes a `Library` argument. `Lawful` states the axioms some
  proofs rely on: `exp(0) = 1`, and `exp` does not overflow at a
  non-positive argument.
- `ess.dfy` (module `Ess`): class `ESS` and the specification functions
  `ChargeStep` and `DischargeStep`. The configuration fields are `const` and
  `SoE` is the only `var`. The update methods declare ``modifies this`SoE``,
  so "nothing else changes" holds by construction.
- `ess_linear.dfy` (module `EssLinear`): class `ESSLinear`. Its `parent`
  field is the superclass part of the object, and every method forwards to
  it, as `super()` does.
- `ess_empirical.dfy` (module `EssEmpirical`): the pure pipeline, written as
  functions (`ReqQuant`, `Table`, `CircuitParams`, `Vterm`, `Regress`,
  `ComputeECM`). It also holds class `ESSEmpirical`, whose update methods
  assign `parent.SoE` from the pipeline and then clamp it.

Behaviour of the code that the model reproduces as written:

- excess and lack are computed after the clamp has already set `SoE` to the
  bound, so every update returns 0 (`EnergyGap` of a state equal to its
  bound).
- The equivalent-circuit discharge compares the new value with `SoE_max`
  but assigns `SoE_min`. Every result below `SoE_max` becomes `SoE_min`, and
  every other result is kept, however large. With any library and
  `SoE_max <= 10`, a regression overflow leaves the sentinel 10 in `SoE`
  (`DischargeKeepsRegressFault`); with a larger `SoE_max`, the sentinel is
  below it and becomes `SoE_min`. With any library, a rounded regression of
  -2.88 whose squarings do not overflow leaves 53.20827136 in `SoE` when
  `SoE_max <= 53.20827136` (`DischargeKeepsCorrectedValue`). `DischargeLeavesBounds` shows both
  branches from one input under two invented libraries, which do not behave
  like Python's `pow` and `round`. The method's docstring, "Same as
  ESS.update_SoE_dch" (ESS_package/ESS_empirical.py:59), points to the
  superclass clamp, which compares with `SoE_min` (ESS_package/ESS.py:133-134).
  The model follows the code as written. The attribute docstrings call
  `SoE_min` and `SoE_max` the minimum and maximum allowable state of energy
  (ESS_package/ESS.py:27-30). The model keeps `SoE` within them only for the
  linear engine (`Ess.ESS.UpdateSoECh`, `Ess.ESS.UpdateSoEDch`, `Ess.Simulate`).
  The circuit charge guarantees only the upper bound. The circuit discharge
  guarantees only the lower bound (when `SoE_min <= SoE_max`), and can leave
  `SoE` above `SoE_max`.
- A fault in the terminal voltage does not make the state of charge 10. The
  sentinel voltage 10 goes through the regression like any other voltage
  (`VoltageFaultRegression`). Only a fault inside the regression gives 10.
- Charging can lower `SoE` when it starts above `SoE_max`. The constructor
  does not validate `SoE_0`, and from any SoE above `SoE_max` a charge lowers
  SoE to `SoE_max` (`ChargeLowersOutOfRangeSoE`). Monotonicity is therefore
  stated under `SoE <= SoE_max`.
- Discharging can raise `SoE` when it starts below `SoE_min`, which the
  constructor does not rule out either: from any SoE below `SoE_min` a
  linear discharge raises SoE to `SoE_min` (`DischargeRaisesOutOfRangeSoE`).
  The discharge's monotonicity is stated under `SoE_min <= SoE`.

Preconditions state only the divisors the code divides by, which raise an
uncaught `ZeroDivisionError` when zero:

- `Q` and `eta` in the linear updates;
- `V_n` and `Q_n` in the circuit updates;
- `Q·eta` and `a` in the wear rate.

`Q > 0` appears only as a hypothesis of the properties about the sign of an
increment and about bounds and monotonicity.

## Model

| member | source | states |
|---|---|---|
| Numerics.Square | ESS_package/ESS_empirical.py:141-145 | `pow(v, 2)` is `None` exactly when it overflows, and otherwise the square of `abs(v)` |
| Ess.ChargeIncrement | ESS_package/ESS.py:107-108 | the charge increment `abs(p·eta·dt)/Q` is non-negative for `Q > 0`, and zero iff `p·eta·dt` is zero |
| Ess.DischargeDecrement | ESS_package/ESS.py:129-130 | the discharge decrement `abs(p/eta·dt)/Q` is non-negative for `Q > 0`, and zero iff `p/eta·dt` is zero |
| Ess.EnergyGap | ESS_package/ESS.py:113 | the energy `(bound - soe)·Q` is 0 once `soe` equals the bound, and for `Q > 0` it is positive iff `soe` is below the bound |
| Ess.ChargeStep | ESS_package/ESS.py:107-113 | the new SoE is at most SoE_max; it is exactly `old + abs(p·eta·dt)/Q` iff that sum is at most SoE_max, and otherwise SoE_max; for `Q > 0` and `old <= SoE_max` it is not below `old` |
| Ess.DischargeStep | ESS_package/ESS.py:129-135 | the new SoE is at least SoE_min; it is exactly `old - abs(p/eta·dt)/Q` iff that is at least SoE_min, and otherwise SoE_min; for `Q > 0` and `old >= SoE_min` it is not above `old` |
| Ess.ChargeStepEvenInPower | ESS_package/ESS.py:107-108 | charging with `-p` gives the same SoE as charging with `p` |
| Ess.DischargeStepEvenInPower | ESS_package/ESS.py:129-130 | discharging with `-p` gives the same SoE as discharging with `p` |
| Ess.DischargeCostsEtaSquared | ESS_package/ESS.py:107-130 | the discharge decrement times `eta²` equals the charge increment for the same power |
| Ess.ChargeThenDischargeRoundTrip | ESS_package/ESS.py:107-135 | without clamping, discharging with `p·eta²` after charging with `p` restores the original SoE |
| Ess.ChargeLowersOutOfRangeSoE | ESS_package/ESS.py:90-113 | for `Q > 0`, from any SoE above SoE_max and at any power, a charge sets SoE to SoE_max, which is lower |
| Ess.DischargeRaisesOutOfRangeSoE | ESS_package/ESS.py:90-135 | for `Q > 0`, from any SoE below SoE_min and at any power, a discharge sets SoE to SoE_min, which is higher |
| Ess.ChargeScenarioClamps | ESS_package/ESS.py:107-113 | 2 kW for 3600 s at eta 0.95 into Q = 10 adds 684, and from 0.5 the charge clamps at 0.9 |
| Ess.Simulate | ESS_package/ESS.py:107-136 | a horizon of charge and discharge steps that starts within `[SoE_min, SoE_max]` stays within it, for `Q > 0` |
| Ess.StepSoE | ESS_package/ESS.py:107-136 | one linear step: a charge ends at most at SoE_max, a discharge at least at SoE_min, and for `Q > 0` a step from within `[SoE_min, SoE_max]` stays within it |
| Ess.SimulateAppend | ESS_package/ESS.py:107-136 | running two horizons one after the other gives the same SoE as running their concatenation (the composition law of repeated calls; it holds of any sequence of steps and is a helper for reasoning about horizons) |
| Ess.ChargesNeverLower | ESS_package/ESS.py:107-113 | a horizon of charges only, from an SoE at most SoE_max, never lowers SoE and ends at most at SoE_max |
| Ess.DischargesNeverRaise | ESS_package/ESS.py:129-135 | a horizon of discharges only, from an SoE at least SoE_min, never raises SoE and ends at least at SoE_min |
| Ess.ESS.constructor | ESS_package/ESS.py:79-91 | every parameter is stored unchanged and SoE starts at SoE_0 |
| Ess.ESS.UpdateSoECh | ESS_package/ESS.py:94-114 | only SoE changes, and it becomes `ChargeStep` of the old SoE; the returned excess is 0; `SoE_min <= SoE <= SoE_max` is preserved when `Q > 0` |
| Ess.ESS.UpdateSoEDch | ESS_package/ESS.py:116-136 | only SoE changes, and it becomes `DischargeStep` of the old SoE; the returned lack is 0; `SoE_min <= SoE <= SoE_max` is preserved when `Q > 0` |
| Ess.ESS.GetWearCost | ESS_package/ESS.py:138-157 | the cost is 0 when the power or the timestep is 0, and it is `dt·W(SoE)·abs(p)` when SoE_prev equals SoE |
| Ess.ESS.WearRate | ESS_package/ESS.py:154-155 | the wear rate `W(soe)` is zero when `B` or `b` is zero |
| Ess.WearCostEvenInPower | ESS_package/ESS.py:154-157 | the wear cost for `-p` equals the wear cost for `p` |
| EssLinear.ESSLinear.constructor | ESS_package/ESS_linear.py:27-39 | the arguments reach the superclass in order, so SoC_0, SoC_min and SoC_max become SoE_0, SoE_min and SoE_max, and SoE starts at SoC_0 |
| EssLinear.ESSLinear.UpdateSoECh | ESS_package/ESS_linear.py:41-45 | same SoE change and same (zero) result as the superclass charge, with its bound invariant |
| EssLinear.ESSLinear.UpdateSoEDch | ESS_package/ESS_linear.py:47-51 | same SoE change and same (zero) result as the superclass discharge, with its bound invariant |
| EssLinear.ESSLinear.GetWearCost | ESS_package/ESS_linear.py:53-57 | equals the superclass wear cost, with its zero-power and flat-step properties |
| EssEmpirical.ReqQuant | ESS_package/ESS_empirical.py:72-88 | `i = p/V_n` and `Qr = SoE·Q_n`; the rate is 1000 when `Qr = 0` and `abs(i/Qr)` otherwise, so it is never negative |
| EssEmpirical.RateIsCRate | ESS_package/ESS_empirical.py:81-88 | away from the sentinel, `rate·abs(Qr) = abs(i)`, and the rate is 0 iff the power is 0 |
| EssEmpirical.Table | ESS_package/ESS_empirical.py:113-119 | exactly one table is used, the charging one iff `i >= 0` and the discharging one iff `i < 0`, and it has 31 entries |
| EssEmpirical.ChargeTableEntries | ESS_package/ESS_empirical.py:114-115 | the 31 charging coefficients, entry by entry |
| EssEmpirical.DischargeTableEntries | ESS_package/ESS_empirical.py:118-119 | the 31 discharging coefficients, entry by entry |
| EssEmpirical.CircuitParams | ESS_package/ESS_empirical.py:121-129 | at rate `x = 0` the rate terms vanish: `R0 = p0·exp(-p3·y) + p4`, `Rp = p7·exp(-p10·y) + p11` and `Cp = -p14·exp(-p17·y) + p18` |
| EssEmpirical.ChargeCircuitClosedForm | ESS_package/ESS_empirical.py:114-129 | with the charging table, `R0 = 0`, `Rp = (1.59 + 1.02x²)·exp(-1.33y)`, `Cp = 5.23 - 0.66·exp(-7.29y)` and `Vocv = 4.42·exp(-5.91y) + 6.34y²` |
| EssEmpirical.DischargeCircuitClosedForm | ESS_package/ESS_empirical.py:118-129 | with the discharging table, the exponentials drop out: `R0 = 0`, `Rp = 7.05x + 4.99x²`, `Cp = 0.12` and `Vocv = 3.13y² - 0.36y³` |
| EssEmpirical.SeriesResistanceVanishes | ESS_package/ESS_empirical.py:113-122 | with either table, `R0 = 0` for every x and y |
| EssEmpirical.VtermFaults | ESS_package/ESS_empirical.py:132-135 | the voltage expression faults whenever `Cp` or `Rp` is zero; without a fault both divisors are nonzero and `exp` does not overflow |
| EssEmpirical.Vterm | ESS_package/ESS_empirical.py:132-135 | the terminal voltage is the sentinel 10 whenever `Cp = 0` or `Rp·Cp = 0`, and whenever `exp` overflows |
| EssEmpirical.Quadratic | ESS_package/ESS_empirical.py:137-141 | at `v2 = v²` the regression polynomial `0.03v² + 1.08v - 4.15` is negative, before rounding, for every voltage in [-39.5, 3.5], and positive from 3.6 V up and at or below -39.6 V; the negative-value correction tests the rounded value, so values in (-0.005, 0) escape it |
| EssEmpirical.NegativeCorrection | ESS_package/ESS_empirical.py:142-143 | a negative value becomes its square; any other value is kept |
| EssEmpirical.OverCorrection | ESS_package/ESS_empirical.py:144-145 | a value above 1 becomes `(v - 1)²`, which is not negative; any other value is kept |
| EssEmpirical.Regress | ESS_package/ESS_empirical.py:136-147 | the regressed state of charge is never negative, and it is the sentinel 10 whenever any of its three squarings overflows (`RegressFaults`: the voltage, a negative rounded value, or the distance to 1 of a corrected value above 1) |
| EssEmpirical.RegressFaults | ESS_package/ESS_empirical.py:140-147 | the three overflows the regression's `try` catches; without one, the voltage's square is defined, and a library in which no square overflows never faults |
| EssEmpirical.RegressWithoutOverflow | ESS_package/ESS_empirical.py:137-145 | where none of the three squarings of this voltage overflows, the result is the rounded `0.03v² + 1.08v - 4.15`, put through the negative correction and then the over-correction |
| EssEmpirical.CorrectionsCompose | ESS_package/ESS_empirical.py:142-145 | the corrections are not exclusive: -2 becomes 4 and then 9 |
| EssEmpirical.ComputeECM | ESS_package/ESS_empirical.py:111-148 | the result is never negative; on a terminal-voltage fault it is the regression of the sentinel voltage, and on a fault in the regression it is the sentinel 10 |
| EssEmpirical.VoltageFaultRegression | ESS_package/ESS_empirical.py:132-147 | on a terminal-voltage fault, with `round(9.65, 2) = 9.65` and no overflow, the result is 74.8225, not 10 |
| EssEmpirical.DischargeZeroRateFaults | ESS_package/ESS_empirical.py:117-135 | on discharge at rate 0, `Rp·Cp = 0`, so the terminal voltage is the sentinel 10 |
| EssEmpirical.DischargeVtermDefined | ESS_package/ESS_empirical.py:81-135 | a discharge reached from a negative current, with `dt >= 0` and a lawful exp, never takes the fault path |
| EssEmpirical.ChargeECM | ESS_package/ESS_empirical.py:46-49 | the circuit model run at the working state `SoE + (i/Q_n)·dt` gives a non-negative value |
| EssEmpirical.DischargeWorkingState | ESS_package/ESS_empirical.py:62-63 | the working state `1 - DoD` is at most 1 for `dt >= 0`, and exactly 1 with no current or no time |
| EssEmpirical.DischargeECM | ESS_package/ESS_empirical.py:61-64 | the circuit model run at the working state `1 - ((abs(i)/Q_n)·dt)/Q_n` gives a non-negative value, the regression of the discharge's terminal voltage |
| EssEmpirical.ChargedSoE | ESS_package/ESS_empirical.py:46-54 | the charged SoE is `min(circuit result, SoE_max)`: it is at most SoE_max, it equals the circuit result iff that result is at most SoE_max, and otherwise it is SoE_max; it is never negative when `SoE_max >= 0` |
| EssEmpirical.DischargedSoE | ESS_package/ESS_empirical.py:61-69 | the discharged SoE is SoE_min iff the circuit result is below SoE_max (or equals SoE_min); otherwise it is the circuit result and at least SoE_max; it is at least SoE_min whenever `SoE_min <= SoE_max` |
| EssEmpirical.DischargeKeepsRegressFault | ESS_package/ESS_empirical.py:61-69 | for every library and input with `SoE_max <= 10`, a discharge whose regression overflows leaves the sentinel 10 in SoE |
| EssEmpirical.DischargeKeepsCorrectedValue | ESS_package/ESS_empirical.py:61-69 | for every library and input with `SoE_max <= 53.20827136`, a discharge whose rounded regression is -2.88 and does not overflow leaves 53.20827136 in SoE |
| EssEmpirical.DischargeLeavesBounds | ESS_package/ESS_empirical.py:61-69 | both branches of the clamp are reachable from one input (48 V, Q_n = 20, bounds 0.1 and 0.9, SoE 0.5, -2 kW over 3600 s), under two invented libraries that are not Python's `pow` and `round`: one in which every square overflows keeps the sentinel 10, and one whose rounding always gives 0.5 drops to SoE_min |
| EssEmpirical.ESSEmpirical.constructor | ESS_package/ESS_empirical.py:27-39 | the arguments reach the superclass unchanged and SoE starts at SoE_0 |
| EssEmpirical.ESSEmpirical.UpdateSoECh | ESS_package/ESS_empirical.py:42-54 | only SoE changes, and it becomes `ChargedSoE` of the old SoE, so it is at most SoE_max; the returned excess is 0 |
| EssEmpirical.ESSEmpirical.UpdateSoEDch | ESS_package/ESS_empirical.py:57-69 | only SoE changes, and it becomes `DischargedSoE` of the old SoE, so it is SoE_min or at least SoE_max, and at least SoE_min when `SoE_min <= SoE_max`; the returned lack is 0 |
| EssEmpirical.ESSEmpirical.GetWearCost | ESS_package/ESS_empirical.py:151-155 | equals the superclass wear cost, with its zero-power and flat-step properties |

## Left out

- Floating point: values are mathematical reals. Rounding error, and the exact half-to-even behaviour of `round(·, 2)`, are not modelled. `round`, `math.exp` and `pow` with the real exponent `b - 1` are the uninterpreted fields of `Library`.
- NaN and infinities: a real has neither. A product that floats would round to zero, or that would reach infinity without raising, is not distinguished from its exact value.
- Overflow outside the `try` blocks: overflow of `math.exp` or `pow` while evaluating the circuit parameters propagates as an uncaught exception. The model has no exception result there; it computes the real value.
- `pow(1 - SoE, b - 1)` with a negative base and a non-integer exponent: Python returns a complex number here, not an error. The uninterpreted `pow` returns a real.
- Ess.ESS.GetWearCost and Ess.ESS.WearRate: `pow(1 - SoE, b - 1)` at ESS_package/ESS.py:154-155 raises an uncaught `ZeroDivisionError` when the base is 0 (SoE or SoE_prev equal to 1) and `b < 1`. It raises an uncaught `OverflowError` when the power overflows. The model has no error result for either path: the uninterpreted `pow` returns a real in both.
- `ZeroDivisionError` outside the `try` blocks (`Q`, `eta`, `V_n`, `Q_n`, `a`, `Q·eta` equal to 0): the code does not catch it. The model makes these divisors nonzero preconditions instead of modelling the exception.
- Faults inside the `try` blocks other than division by zero and overflow, such as `MemoryError` or a keyboard interrupt: the bare `except` catches these too. The model has no way to raise them.
- Constructor validation: the code validates nothing, and neither does the model. Conditions such as `SoE_min <= SoE_0 <= SoE_max` appear only as hypotheses of the lemmas that need them.
- `p_GL`, `model` and `p_S_max`: `p_GL` is a parameter of the charge updates and is unused. `model` and `p_S_max` are stored fields with no behaviour.
- The class hierarchy: `ESSLinear` and `ESSEmpirical` contain their `ESS` superclass part as a `parent` object instead of inheriting from it. Dynamic dispatch and `isinstance` behaviour are not modelled.
- EssEmpirical.ReqQuant: a function of `V_n`, `Q_n` and SoE instead of a method reading them from the object. It changes no state in the source either.
- EssEmpirical.ComputeECM: states that the result is never negative and what it is on a terminal-voltage fault. It states no numeric value of the state of charge for a voltage that did not fault, because such a value depends on `exp` and `round`.
