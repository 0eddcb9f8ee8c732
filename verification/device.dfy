/** The tablet breakpoint (src/utils/deviceUtils.ts). Window dimensions are
    density-independent pixels and may be fractional, hence `real`. */
module Device {

  const TabletBreakpoint: real := 1000.0

  function Max(a: real, b: real): real {
    if a >= b then a else b
  }

  /** `isTablet()`: the longer side of the window reaches the breakpoint. */
  function IsTablet(width: real, height: real): (r: bool)
    ensures r <==> (width >= TabletBreakpoint || height >= TabletBreakpoint)
  {
    Max(width, height) >= TabletBreakpoint
  }

  /** Rotating the device never changes the answer. */
  lemma IsTabletSymmetric(width: real, height: real)
    ensures IsTablet(width, height) == IsTablet(height, width)
  {
  }

  /** A larger window is never less of a tablet. */
  lemma IsTabletMonotone(w1: real, h1: real, w2: real, h2: real)
    requires w1 <= w2 && h1 <= h2
    ensures IsTablet(w1, h1) ==> IsTablet(w2, h2)
  {
  }

  /** The state `useResponsive` keeps. */
  datatype Responsive = Responsive(isTablet: bool, width: real, height: real)

  /** The hook's initial state for the first window size. */
  function InitResponsive(width: real, height: real): (r: Responsive)
    ensures r.isTablet == IsTablet(width, height)
    ensures r.width == width && r.height == height
  {
    Responsive(Max(width, height) >= TabletBreakpoint, width, height)
  }

  /** The effect that runs when the window dimensions change. */
  function OnDimensionsChange(r: Responsive, width: real, height: real): (r': Responsive)
    ensures r'.isTablet == IsTablet(width, height)
    ensures r' == InitResponsive(width, height)
  {
    Responsive(Max(width, height) >= TabletBreakpoint, width, height)
  }
}
