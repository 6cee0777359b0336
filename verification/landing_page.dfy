/** The earnings calculator of the landing page (LandingPage.tsx): five data
    categories, each switched on or off, and an earnings figure of 1075 / 5 = 215
    dollars per active category. 215 times a count from 0 to 5 is a whole number
    of dollars, so earnings are integer dollars here. */
module Landing {
  import opened Common

  datatype ToggleKey = Location | Browsing | Streaming | Credit | Financial

  /** `ToggleState`. */
  datatype ToggleState = ToggleState(
    location: bool, browsing: bool, streaming: bool, credit: bool, financial: bool)
  {
    function Get(key: ToggleKey): bool
    {
      match key
      case Location => location
      case Browsing => browsing
      case Streaming => streaming
      case Credit => credit
      case Financial => financial
    }
  }

  const BaseEarnings: int := 1075
  const ToggleCount: int := 5
  const EarningsPerToggle: int := BaseEarnings / ToggleCount

  /** The initial toggles: everything on. */
  const AllOn := ToggleState(true, true, true, true, true)

  /** 1075 divides by 5 exactly, into 215. */
  lemma PerToggleIsExact()
    ensures EarningsPerToggle == 215 && EarningsPerToggle * ToggleCount == BaseEarnings
  {
  }

  /** The position of a key in `Object.values(toggles)`. */
  function Position(key: ToggleKey): nat
  {
    match key
    case Location => 0
    case Browsing => 1
    case Streaming => 2
    case Credit => 3
    case Financial => 4
  }

  /** `Object.values(toggles)`: one entry per key, at the key's position. */
  function Values(t: ToggleState): (flags: seq<bool>)
    ensures |flags| == ToggleCount
    ensures forall key :: flags[Position(key)] == t.Get(key)
  {
    [t.location, t.browsing, t.streaming, t.credit, t.financial]
  }

  /** `{ ...prev, [key]: !prev[key] }`. */
  function Flip(t: ToggleState, key: ToggleKey): (r: ToggleState)
    ensures r.Get(key) == !t.Get(key)
    ensures forall other :: other != key ==> r.Get(other) == t.Get(other)
  {
    match key
    case Location => t.(location := !t.location)
    case Browsing => t.(browsing := !t.browsing)
    case Streaming => t.(streaming := !t.streaming)
    case Credit => t.(credit := !t.credit)
    case Financial => t.(financial := !t.financial)
  }

  /** `Object.values(newToggles).filter(Boolean).length`. */
  function ActiveCount(t: ToggleState): (n: nat)
    ensures n <= ToggleCount
    ensures n == 0 <==> forall key :: !t.Get(key)
    ensures n == ToggleCount <==> forall key :: t.Get(key)
  {
    var flags := Values(t);
    CountTrueBounds(flags);
    assert forall i :: 0 <= i < |flags| ==> flags[i] == t.Get([Location, Browsing, Streaming, Credit, Financial][i]);
    CountTrue(flags)
  }

  /** The earnings shown for a toggle state, in dollars. */
  function EarningsFor(t: ToggleState): int
  {
    EarningsPerToggle * ActiveCount(t)
  }

  /** The starting figure 1075 is what the formula gives for all toggles on. */
  lemma InitialEarningsConsistent()
    ensures EarningsFor(AllOn) == BaseEarnings
  {
  }

  /** Flipping the same key twice restores the toggles. */
  lemma FlipTwiceRestores(t: ToggleState, key: ToggleKey)
    ensures Flip(Flip(t, key), key) == t
  {
  }

  /** Flipping one key moves the active count by exactly one. */
  lemma FlipMovesCountByOne(t: ToggleState, key: ToggleKey)
    ensures ActiveCount(Flip(t, key)) == ActiveCount(t) + (if t.Get(key) then -1 else 1)
  {
    var flags := Values(t);
    assert Values(Flip(t, key)) == flags[Position(key) := !flags[Position(key)]];
    CountTrueFlip(flags, Position(key));
  }

  /** Earnings stay within [0, 1075] and each toggle moves them by exactly 215:
      down when the key was on, up when it was off. */
  lemma EarningsStep(t: ToggleState, key: ToggleKey)
    ensures 0 <= EarningsFor(t) <= BaseEarnings
    ensures EarningsFor(Flip(t, key)) == EarningsFor(t) + (if t.Get(key) then -215 else 215)
  {
    FlipMovesCountByOne(t, key);
  }

  /** The landing page's toggle state and earnings figure. */
  class LandingPage {
    var toggles: ToggleState
    var calculatedEarnings: int

    /** The figure shown always matches the toggles. */
    ghost predicate Valid()
      reads this
    {
      calculatedEarnings == EarningsFor(toggles)
    }

    constructor ()
      ensures Valid() && toggles == AllOn && calculatedEarnings == BaseEarnings
    {
      toggles := AllOn;
      calculatedEarnings := 1075;
    }

    /** `handleToggle(key)`: flip one key, then recompute the earnings from the
        new toggles (the old figure is not consulted). */
    method HandleToggle(key: ToggleKey)
      modifies this
      ensures toggles == Flip(old(toggles), key)
      ensures calculatedEarnings == EarningsPerToggle * ActiveCount(toggles)
      ensures Valid()
    {
      var newToggles := Flip(toggles, key);
      var activeCount := ActiveCount(newToggles);
      calculatedEarnings := EarningsPerToggle * activeCount;
      toggles := newToggles;
    }
  }
}
