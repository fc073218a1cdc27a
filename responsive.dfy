/** The responsive helpers of website/src/utils/responsive.ts: mobile and
    desktop values for spacing and shadows, and the viewport classes. */
module Responsive {
  import opened Wrappers

  /** A value per breakpoint, as the MUI `sx` prop takes it. */
  datatype ByBreakpoint<T> = ByBreakpoint(xs: T, md: T)

  /** `shadowTokens.elevation.sm`. */
  const ElevationSm: string := "0 1px 3px 0 rgba(0, 0, 0, 0.1), 0 1px 2px 0 rgba(0, 0, 0, 0.06)"

  /** `getResponsiveShadow`: `mobileShadow || elevation.sm`, so an absent or
      empty mobile shadow falls back to the small elevation. */
  function ResponsiveShadow(desktopShadow: string, mobileShadow: Option<string>): (r: ByBreakpoint<string>)
    ensures r.md == desktopShadow
    ensures mobileShadow.Some? && mobileShadow.value != "" ==> r.xs == mobileShadow.value
    ensures mobileShadow.None? || mobileShadow.value == "" ==> r.xs == ElevationSm
    ensures r.xs != ""
  {
    ByBreakpoint(if mobileShadow.Some? && mobileShadow.value != "" then mobileShadow.value else ElevationSm, desktopShadow)
  }

  /** The default mobile spacing: `Math.max(1, Math.floor(d * 0.75))`. */
  function DefaultMobileSpacing(desktopSpacing: int): (xs: int)
    ensures xs == if ((desktopSpacing as real) * 0.75).Floor < 1 then 1 else ((desktopSpacing as real) * 0.75).Floor
  {
    var scaled := (3 * desktopSpacing) / 4;
    FloorOfThreeQuarters(desktopSpacing);
    if scaled < 1 then 1 else scaled
  }

  /** For an integer, flooring three quarters of it is integer division of
      three times it by 4 (Dafny's division floors for a positive divisor). */
  lemma FloorOfThreeQuarters(d: int)
    ensures ((d as real) * 0.75).Floor == (3 * d) / 4
  {
    var q := (3 * d) / 4;
    var m := (3 * d) % 4;
    assert 3 * d == 4 * q + m && 0 <= m < 4;
    assert (d as real) * 0.75 == (q as real) + (m as real) / 4.0;
  }

  /** `getResponsiveSpacing`: an explicit mobile spacing (0 included) is used
      as given; otherwise the default. */
  function ResponsiveSpacing(desktopSpacing: int, mobileSpacing: Option<int>): (r: ByBreakpoint<int>)
    ensures r.md == desktopSpacing
    ensures mobileSpacing.Some? ==> r.xs == mobileSpacing.value
    ensures mobileSpacing.None? ==> r.xs == DefaultMobileSpacing(desktopSpacing)
  {
    ByBreakpoint(if mobileSpacing.Some? then mobileSpacing.value else DefaultMobileSpacing(desktopSpacing), desktopSpacing)
  }

  /** The default mobile spacing is at least 1 and, for a positive desktop
      spacing, never more than it; it is strictly less from 4 on. */
  lemma DefaultSpacingBounds(d: int)
    ensures ResponsiveSpacing(d, None).xs >= 1
    ensures d >= 1 ==> ResponsiveSpacing(d, None).xs <= d
    ensures d >= 4 ==> ResponsiveSpacing(d, None).xs < d
  {
    FloorOfThreeQuarters(d);
  }

  /** Concrete defaults: 16 gives 12, 4 gives 3, 1 gives 1, 0 gives 1. */
  lemma DefaultSpacingExamples()
    ensures ResponsiveSpacing(16, None).xs == 12
    ensures ResponsiveSpacing(4, None).xs == 3
    ensures ResponsiveSpacing(1, None).xs == 1
    ensures ResponsiveSpacing(0, None).xs == 1
  {
    FloorOfThreeQuarters(16);
    FloorOfThreeQuarters(4);
    FloorOfThreeQuarters(1);
    FloorOfThreeQuarters(0);
  }

  /** `breakpoints`. */
  const Mobile: int := 0
  const Tablet: int := 600
  const Desktop: int := 960
  const Wide: int := 1280

  /** `isMobile`; `width` is `window.innerWidth`, `None` when there is no
      `window` (server-side rendering). */
  function IsMobile(width: Option<int>): (r: bool)
    ensures r <==> width.Some? && width.value < 600
  {
    width.Some? && width.value < Tablet
  }

  /** `isTablet`. */
  function IsTablet(width: Option<int>): (r: bool)
    ensures r <==> width.Some? && 600 <= width.value < 960
  {
    width.Some? && width.value >= Tablet && width.value < Desktop
  }

  /** `isDesktop`. */
  function IsDesktop(width: Option<int>): (r: bool)
    ensures r <==> width.Some? && width.value >= 960
  {
    width.Some? && width.value >= Desktop
  }

  /** In a browser exactly one of the three classes holds; without a window
      none does. */
  lemma ViewportClassesPartition(width: Option<int>)
    ensures width.Some? ==>
      (IsMobile(width) || IsTablet(width) || IsDesktop(width)) &&
      !(IsMobile(width) && IsTablet(width)) && !(IsMobile(width) && IsDesktop(width)) &&
      !(IsTablet(width) && IsDesktop(width))
    ensures width.None? ==> !IsMobile(width) && !IsTablet(width) && !IsDesktop(width)
  {
  }

  /** Widening the viewport never moves it to a smaller class. */
  lemma ViewportClassesMonotone(w1: int, w2: int)
    requires w1 <= w2
    ensures IsDesktop(Some(w1)) ==> IsDesktop(Some(w2))
    ensures IsTablet(Some(w1)) ==> !IsMobile(Some(w2))
  {
  }
}
