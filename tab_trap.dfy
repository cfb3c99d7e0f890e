/**
 * The Tab trap of the open accessibility panel: Tab on its last focusable
 * element wraps to the first, Shift+Tab on its first wraps to the last, and
 * every other key press is left to the browser.
 */
module TabTrap {
  import opened Wrappers

  const TabKey := "Tab"

  /** What the keydown listener does with the event. */
  datatype Outcome =
    | Default           // focus untouched, default not prevented
    | Wrap(target: nat) // focus moved to element `target`, default prevented

  /**
   * `count` focusable elements in the panel; `active` is the index among
   * them of the focused element, None when the focus is elsewhere.
   */
  predicate FocusWithin(count: nat, active: Option<nat>)
  {
    active.Some? ==> active.value < count
  }

  /**
   * The decision of the keydown listener. With no focusable element, first
   * and last are both undefined and no focused element is equal to them.
   */
  function OnKeyDown(key: string, shift: bool, panelShown: bool, count: nat, active: Option<nat>): (r: Outcome)
    requires FocusWithin(count, active)
    ensures r.Wrap? <==>
              key == TabKey && panelShown && active.Some? &&
              active.value == (if shift then 0 else count - 1)
    ensures r.Wrap? ==> r.target == (if shift then count - 1 else 0)
    ensures r.Wrap? ==> r.target < count
  {
    if key != TabKey || !panelShown then Default
    else if shift && count > 0 && active == Some(0) then Wrap(count - 1)
    else if !shift && count > 0 && active == Some(count - 1) then Wrap(0)
    else Default
  }

  /** Where focus lands after Tab or Shift+Tab: the wrap target, or the browser's next or previous element. */
  function FocusAfterTab(shift: bool, count: nat, i: nat): int
    requires i < count
  {
    match OnKeyDown(TabKey, shift, true, count, Some(i))
    case Wrap(t) => t
    case Default => if shift then i - 1 else i + 1
  }

  /** While the panel is shown, Tab and Shift+Tab keep focus among its elements. */
  lemma FocusStaysInPanel(shift: bool, count: nat, i: nat)
    requires i < count
    ensures 0 <= FocusAfterTab(shift, count, i) < count
  {
  }

  /** Tab off the last element and Shift+Tab straight back return to the last element. */
  lemma WrapThereAndBack(count: nat)
    requires count > 0
    ensures FocusAfterTab(false, count, count - 1) == 0
    ensures FocusAfterTab(true, count, FocusAfterTab(false, count, count - 1)) == count - 1
  {
  }
}
