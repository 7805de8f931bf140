/** `checkMobile`: the layout switches to mobile at a fixed viewport width. */
module Layout {

  /** The widest viewport, in CSS pixels, laid out as mobile. */
  const MobileBreakpoint: int := 768

  /** The viewport is laid out as mobile. */
  predicate IsMobile(innerWidth: int)
  {
    innerWidth <= MobileBreakpoint
  }

  /** The breakpoint itself is mobile and one pixel wider is not. */
  lemma BreakpointIsInclusive()
    ensures IsMobile(MobileBreakpoint) && !IsMobile(MobileBreakpoint + 1)
  {
  }
}
