/**
 * The auto-scroll setting of the carousel (OSKUICarouselAutoScroll.swift).
 *
 * Swift's `TimeInterval` is a `Double`; it is modelled as a `real`, so NaN
 * and the infinities are out of scope. Only comparison with 0 and identity
 * are used on it.
 */
module CarouselAutoScroll {

  /** `.inactive`, or `.active(t)`: auto-scroll with interval `t`. */
  datatype AutoScroll = Inactive | Active(period: real)
  {
    /**
     * The setting's own `isActive`: only an active setting with a positive
     * period reports active. (The carousel's view model may substitute
     * another setting first; that is not part of this model.)
     */
    function IsActive(): (active: bool)
      ensures Inactive? ==> !active
      ensures active <==> Interval() > 0.0
    {
      match this
      case Active(t) => t > 0.0
      case Inactive => false
    }

    /**
     * The threshold the view model compares its tick count against; 0 when
     * inactive, the period itself (unclamped) when active.
     */
    function Interval(): (threshold: real)
      ensures Inactive? ==> threshold == 0.0
      ensures Active? ==> threshold == period
    {
      match this
      case Active(t) => t
      case Inactive => 0.0
    }
  }

  /** The library's default active setting: `.active(5)`. */
  const DefaultActive: AutoScroll := Active(5.0)

  lemma InactiveIsNeverActive()
    ensures !Inactive.IsActive() && Inactive.Interval() == 0.0
  {
  }

  /** `.active(t)` is active exactly when `t > 0`, and keeps `t` as its interval, even when `t <= 0`. */
  lemma ActiveExactlyWhenPositive(t: real)
    ensures Active(t).IsActive() <==> t > 0.0
    ensures Active(t).Interval() == t
  {
  }

  /**
   * The enum itself substitutes no default for a non-positive period: such
   * a setting reports inactive and keeps its period as its interval. (The
   * view model's substitution is listed under "Left out" in README.md.)
   */
  lemma NonPositivePeriodIsNotCoerced(t: real)
    requires t <= 0.0
    ensures !Active(t).IsActive()
    ensures Active(t) != DefaultActive && Active(t).Interval() != DefaultActive.Interval()
  {
  }

  lemma DefaultActiveIsActiveFive()
    ensures DefaultActive.IsActive() && DefaultActive.Interval() == 5.0
  {
  }

  /** For every setting, being active and having a positive interval are the same thing. */
  lemma ActiveIffPositiveInterval(a: AutoScroll)
    ensures a.IsActive() <==> a.Interval() > 0.0
  {
  }
}
