/**
 * The linear engine (ESS_package/ESS_linear.py): a subclass that adds
 * nothing to the superclass. The superclass part of an object is the
 * `parent` object, and every operation is forwarded to it, as the source
 * forwards through super().
 */
module EssLinear {
  import opened Numerics
  import Ess

  class ESSLinear {
    /** The superclass state: configuration and the state of energy. */
    const parent: Ess.ESS

    /** Passes the arguments on in order, so SoC0, SoCMin and SoCMax become SoE0, SoEMin and SoEMax. */
    constructor (model: string, Q: real, pSMax: real, a: real, b: real, B: real, eta: real,
                 SoC0: real, Vn: real, SoCMin: real, SoCMax: real, Qn: real)
      ensures fresh(parent)
      ensures parent.model == model && parent.Q == Q && parent.pSMax == pSMax
      ensures parent.a == a && parent.b == b && parent.B == B && parent.eta == eta
      ensures parent.SoE0 == SoC0 && parent.Vn == Vn && parent.SoEMin == SoCMin
      ensures parent.SoEMax == SoCMax && parent.Qn == Qn
      ensures parent.SoE == SoC0
    {
      parent := new Ess.ESS(model, Q, pSMax, a, b, B, eta, SoC0, Vn, SoCMin, SoCMax, Qn);
    }

    /** The superclass charge: same new state of energy, same (zero) excess. */
    method UpdateSoECh(pGLS: real, pGL: real, deltaT: real) returns (excess: real)
      requires parent.Q != 0.0
      modifies parent`SoE
      ensures parent.SoE == Ess.ChargeStep(old(parent.SoE), pGLS, parent.eta, deltaT, parent.Q, parent.SoEMax)
      ensures excess == 0.0
      ensures 0.0 < parent.Q && old(parent.InBounds()) ==> parent.InBounds()
    {
      excess := parent.UpdateSoECh(pGLS, pGL, deltaT);
    }

    /** The superclass discharge: same new state of energy, same (zero) lack. */
    method UpdateSoEDch(pGLS: real, deltaT: real) returns (lack: real)
      requires parent.eta != 0.0 && parent.Q != 0.0
      modifies parent`SoE
      ensures parent.SoE == Ess.DischargeStep(old(parent.SoE), pGLS, parent.eta, deltaT, parent.Q, parent.SoEMin)
      ensures lack == 0.0
      ensures 0.0 < parent.Q && old(parent.InBounds()) ==> parent.InBounds()
    {
      lack := parent.UpdateSoEDch(pGLS, deltaT);
    }

    /** The superclass wear cost, with its zero-power and flat-step properties. */
    function GetWearCost(m: Library, SoEPrev: real, pSk: real, deltaT: real): (c: real)
      reads parent
      requires parent.Q * parent.eta != 0.0 && parent.a != 0.0
      ensures c == parent.GetWearCost(m, SoEPrev, pSk, deltaT)
      ensures pSk == 0.0 || deltaT == 0.0 ==> c == 0.0
      ensures SoEPrev == parent.SoE ==> c == deltaT * parent.WearRate(m, parent.SoE) * Abs(pSk)
    {
      parent.GetWearCost(m, SoEPrev, pSk, deltaT)
    }
  }
}
