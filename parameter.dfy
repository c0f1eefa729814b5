/**
 * The warp parameter record `OpticsCompensationParameter`: distortion amount,
 * spool/barrel mode, the anti-aliasing flag and the centre offset that both
 * kernel files read as `center_pos`.
 */
module Parameter {
  import opened Pixels

  /**
   * `amount` is the signed distortion magnitude, `spoolMode` selects the
   * arctangent mapping, `antiAliasing` the 2×2 supersampled barrel path.
   * `centerPos` is not declared by the C++ struct, although both kernel files
   * read `parameter.center_pos`; it is added here so that they can be modelled.
   */
  datatype OpticsCompensationParameter = OpticsCompensationParameter(
    amount: real,
    spoolMode: bool,
    antiAliasing: bool,
    centerPos: Vec2)

  const NoOffset: Vec2 := Vec2(0.0, 0.0)

  /** The three-argument constructor; the added centre offset starts at zero. */
  function MakeParameter(amount: real, spoolMode: bool, antiAliasing: bool): (p: OpticsCompensationParameter)
    ensures p.amount == amount && p.spoolMode == spoolMode && p.antiAliasing == antiAliasing
    ensures p.centerPos == NoOffset
  {
    OpticsCompensationParameter(amount, spoolMode, antiAliasing, NoOffset)
  }

  /** The default constructor delegates to the three-argument one with (0, false, false). */
  function DefaultParameter(): (p: OpticsCompensationParameter)
    ensures p.amount == 0.0 && !p.spoolMode && !p.antiAliasing
    ensures p.centerPos == NoOffset
  {
    MakeParameter(0.0, false, false)
  }

  /**
   * `CalcFocalDistance` computes 500 / tan(0.5 · amount · π) in float; the
   * transcendental part is the caller-supplied `focalOf`, a function of the
   * amount alone.
   */
  function CalcFocalDistance(p: OpticsCompensationParameter, focalOf: real -> real): real {
    focalOf(p.amount)
  }

  /** The focal distance depends on the amount only, not on mode, flag or offset. */
  lemma FocalDistanceDependsOnAmountOnly(p: OpticsCompensationParameter, q: OpticsCompensationParameter,
                                         focalOf: real -> real)
    ensures CalcFocalDistance(p, focalOf) == CalcFocalDistance(q, focalOf) <== p.amount == q.amount
  {
  }
}
