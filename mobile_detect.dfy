/**
 * The `useIsMobile` hook: a device counts as mobile when its window is narrower than the
 * breakpoint, its primary pointer is coarse, or it reports touch support. The browser
 * queries (`window.innerWidth`, `matchMedia("(pointer: coarse)")`, `"ontouchstart" in
 * window`, `navigator.maxTouchPoints`, `navigator.msMaxTouchPoints`) are read into a
 * `Platform` record that callers supply.
 */
module MobileDetect {
  import opened Wrappers

  const MobileBreakpoint: int := 768

  /**
   * What the browser reports. `msMaxTouchPoints` is a legacy property that is usually
   * absent; an absent value compares as `undefined > 0`, which is false.
   */
  datatype Platform = Platform(
    innerWidth: int,
    coarsePointer: bool,
    hasOnTouchStart: bool,
    maxTouchPoints: int,
    msMaxTouchPoints: Option<int>)

  /** `isTouchDevice()` */
  predicate IsTouchDevice(p: Platform) {
    p.hasOnTouchStart || p.maxTouchPoints > 0 || (p.msMaxTouchPoints.Some? && p.msMaxTouchPoints.value > 0)
  }

  /** `window.innerWidth < MOBILE_BREAKPOINT` */
  predicate IsSmallScreen(width: int) {
    width < MobileBreakpoint
  }

  /** The value `checkIsMobile` stores. */
  predicate IsMobile(p: Platform) {
    IsSmallScreen(p.innerWidth) || p.coarsePointer || IsTouchDevice(p)
  }

  /** The breakpoint is strict: 767 pixels is a small screen, 768 is not. */
  lemma BreakpointIsStrict()
    ensures IsSmallScreen(767) && !IsSmallScreen(768)
  {
  }

  /** A narrower window is at least as small a screen. */
  lemma SmallScreenDownwardClosed(w1: int, w2: int)
    requires w1 <= w2
    ensures IsSmallScreen(w2) ==> IsSmallScreen(w1)
  {
  }

  /** A wide desktop window with a fine pointer and no touch support is not mobile. */
  lemma DesktopIsNotMobile(width: int)
    requires width >= MobileBreakpoint
    ensures !IsMobile(Platform(width, false, false, 0, None))
  {
  }

  /** An absent `msMaxTouchPoints` is the same as zero. */
  lemma AbsentMsTouchPointsIsZero(p: Platform)
    ensures IsTouchDevice(p.(msMaxTouchPoints := None)) == IsTouchDevice(p.(msMaxTouchPoints := Some(0)))
  {
  }

  /** The hook's state: `undefined` until the first check, then the last computed value. */
  type HookState = Option<bool>

  /** `useState<boolean | undefined>(undefined)` */
  function InitialHookState(): (s: HookState)
    ensures s.None?
  {
    None
  }

  /** `checkIsMobile()`: at mount and on every change of the watched media query. */
  function Check(s: HookState, p: Platform): (r: HookState)
    ensures r.Some? && (r.value <==> IsMobile(p))
  {
    Some(IsMobile(p))
  }

  /** `!!isMobile`: the hook's return value. */
  function HookValue(s: HookState): (r: bool)
    ensures r <==> s == Some(true)
  {
    match s
    case None => false
    case Some(b) => b
  }

  /** Before the first check, the hook reports not mobile. */
  lemma BeforeCheckNotMobile()
    ensures !HookValue(InitialHookState())
  {
  }

  /** After the checks run on platforms `ps`, the hook reports the last platform's answer. */
  function Checks(s: HookState, ps: seq<Platform>): HookState {
    if ps == [] then s else Check(Checks(s, ps[..|ps| - 1]), ps[|ps| - 1])
  }

  /** The hook's value always follows the most recent check, whatever came before it. */
  lemma LatestCheckWins(s: HookState, ps: seq<Platform>)
    requires ps != []
    ensures HookValue(Checks(s, ps)) == IsMobile(ps[|ps| - 1])
  {
  }
}
