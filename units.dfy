/** Length conversion from millimetres to the SVG drawing unit (main.py:48-54). */
module Units {

  /** Millimetres in one drawing unit. The source divides by 0.254, so one drawing unit is
      0.254 mm (10 mil), whatever the name mm2mil10 suggests. */
  const MmPerUnit: real := 0.254

  /** mm2mil10: a length in millimetres expressed in drawing units; no rounding (reals stand for floats). */
  function MmToMil10(mm: real): (u: real)
    ensures u * MmPerUnit == mm
  {
    mm / MmPerUnit
  }

  /** Converting back multiplies by 0.254: the inverse of MmToMil10. */
  function Mil10ToMm(u: real): (mm: real)
    ensures MmToMil10(mm) == u
  {
    u * MmPerUnit
  }

  lemma MmToMil10Inverse(mm: real)
    ensures Mil10ToMm(MmToMil10(mm)) == mm
  {
  }

  /** The conversion is linear: zero, additive, odd and homogeneous. */
  lemma MmToMil10Linear(a: real, b: real, k: real)
    ensures MmToMil10(0.0) == 0.0
    ensures MmToMil10(a + b) == MmToMil10(a) + MmToMil10(b)
    ensures MmToMil10(a - b) == MmToMil10(a) - MmToMil10(b)
    ensures MmToMil10(-a) == -MmToMil10(a)
    ensures MmToMil10(k * a) == k * MmToMil10(a)
  {
  }

  /** The conversion is strictly increasing, hence injective. */
  lemma MmToMil10StrictlyIncreasing(a: real, b: real)
    ensures a < b <==> MmToMil10(a) < MmToMil10(b)
    ensures a == b <==> MmToMil10(a) == MmToMil10(b)
  {
  }
}
