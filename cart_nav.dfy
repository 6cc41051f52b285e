/**
 * CartNav of app/cart/CartNav.tsx: the navigation badge. It only reads the
 * cart context; it has no control that dispatches.
 */
module CartNav {
  import opened CartReducer
  import opened CartTotals

  /** `isHydrated ? totalItems : 0`. */
  function BadgeCount(state: CartState, isHydrated: bool): int
  {
    if isHydrated then TotalItems(state.items) else 0
  }

  /** Before hydration the badge reads 0 whatever the items; afterwards it is the unit count. */
  lemma BadgeGate(state: CartState, isHydrated: bool)
    ensures !isHydrated ==> BadgeCount(state, isHydrated) == 0
    ensures isHydrated ==> BadgeCount(state, isHydrated) == TotalItems(state.items)
  {
  }

  /** For a well-formed hydrated cart the badge is 0 exactly when the cart is empty, and never below the number of lines. */
  lemma BadgeZeroIffEmpty(state: CartState)
    requires WellFormed(state.items)
    ensures BadgeCount(state, true) == 0 <==> state.items == []
    ensures BadgeCount(state, true) >= |state.items|
  {
    TotalItemsBound(state.items);
  }

  /** The badge follows the cart: "+" on a line adds one, CLEAR_CART brings it to 0. */
  lemma BadgeFollowsActions(state: CartState, k: int)
    requires UniqueIds(state.items) && 0 <= k < |state.items|
    ensures BadgeCount(Reduce(state, IncreaseQuantity(state.items[k].id)), true) == BadgeCount(state, true) + 1
    ensures BadgeCount(Reduce(state, ClearCart), true) == 0
  {
    IncreaseTotals(state, k);
  }
}
