/**
 * The cart page of app/cart/page.tsx as a view function: what is rendered for
 * a given cart state and hydration flag, and which action each control
 * dispatches. Prices are cents; `toFixed(2)` formatting is not modelled.
 */
module CartPage {
  import opened CartReducer
  import opened CartTotals

  /** One rendered cart line: its data, its subtotal and the actions behind "-", "+" and "Remove". */
  datatype Line = Line(
    item: CartItem,
    subtotal: int,
    onDecrease: CartAction,
    onIncrease: CartAction,
    onRemove: CartAction)

  datatype CartView =
    | Loading
    | EmptyView
    | Listing(lines: seq<Line>, totalItems: int, totalPrice: int, checkoutDisabled: bool)

  function LineOf(item: CartItem): Line
  {
    Line(item, LineTotal(item), DecreaseQuantity(item.id), IncreaseQuantity(item.id), RemoveItem(item.id))
  }

  function Lines(items: seq<CartItem>): (r: seq<Line>)
    ensures |r| == |items|
    ensures forall i :: 0 <= i < |items| ==> r[i] == LineOf(items[i])
  {
    if items == [] then [] else [LineOf(items[0])] + Lines(items[1..])
  }

  /** CartPage: the loading view until hydrated, then the empty view or the listing with totals and checkout. */
  function View(state: CartState, isHydrated: bool): CartView
  {
    if !isHydrated then Loading
    else if |state.items| == 0 then EmptyView
    else Listing(Lines(state.items), TotalItems(state.items), TotalPrice(state.items), |state.items| == 0)
  }

  /** Before hydration only the loading view is produced; a hydrated empty cart shows no checkout button. */
  lemma ViewGates(state: CartState, isHydrated: bool)
    ensures View(state, isHydrated) == Loading <==> !isHydrated
    ensures View(state, isHydrated) == EmptyView <==> isHydrated && state.items == []
    ensures View(state, isHydrated).Listing? ==> !View(state, isHydrated).checkoutDisabled
  {
  }

  /** The listing shows one line per item, in order, with subtotal price × quantity and the cart's two totals. */
  lemma ListingContents(state: CartState)
    requires state.items != []
    ensures var v := View(state, true);
      && v.Listing?
      && |v.lines| == |state.items|
      && v.totalItems == TotalItems(state.items)
      && v.totalPrice == TotalPrice(state.items)
      && forall i :: 0 <= i < |state.items| ==>
           v.lines[i].item == state.items[i] && v.lines[i].subtotal == state.items[i].price * state.items[i].quantity
  {
  }

  /** Each line's controls act on that line's own item: "+" adds one unit, "Remove" drops just that line. */
  lemma ControlsTargetOwnLine(state: CartState, k: int)
    requires UniqueIds(state.items) && 0 <= k < |state.items|
    ensures var line := Lines(state.items)[k];
      && line.onDecrease == DecreaseQuantity(state.items[k].id)
      && Reduce(state, line.onIncrease).items[k].quantity == state.items[k].quantity + 1
      && TotalPrice(Reduce(state, line.onIncrease).items) == TotalPrice(state.items) + state.items[k].price
      && Reduce(state, line.onRemove).items == state.items[..k] + state.items[k + 1..]
  {
    IncreaseTotals(state, k);
    AdjustPointwise(state.items, state.items[k].id, 1);
    WithoutIdAt(state.items, k);
  }
}
