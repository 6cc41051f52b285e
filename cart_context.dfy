/**
 * CartProvider of app/cart/CartContext.tsx: the reducer state, the `isHydrated`
 * flag and the browser's key-value storage. The mount effect reads the stored
 * blob once and may dispatch LOAD_CART; the save effect writes the whole state
 * under "gizmos_cart" after every change, but only once hydrated.
 *
 * A stored value is either one this provider wrote (its JSON text parses back
 * to the state it came from) or foreign text, whose parse result is an input:
 * `Some(items)` when `JSON.parse` succeeds and yields an object with an array
 * `items`, `None` when it throws or yields anything else.
 */
module CartContext {
  import opened Wrappers
  import opened CartReducer

  const StorageKey := "gizmos_cart"
  const OutsideProviderMessage := "useCart must be used within CartProvider"

  datatype Blob = Json(saved: CartState) | Text(raw: string)

  /**
   * What the mount effect hands to LOAD_CART: nothing when the key is absent or
   * its value is the empty string (`if (stored)`), and otherwise what parsing yields.
   */
  function StoredItems(store: map<string, Blob>, parsedText: Option<seq<CartItem>>): (r: Option<seq<CartItem>>)
    ensures StorageKey !in store ==> r == None
    ensures StorageKey in store && store[StorageKey].Json? ==> r == Some(store[StorageKey].saved.items)
    ensures StorageKey in store && store[StorageKey] == Text("") ==> r == None
    ensures StorageKey in store && store[StorageKey].Text? && store[StorageKey].raw != "" ==> r == parsedText
  {
    if StorageKey !in store then None
    else match store[StorageKey]
      case Json(saved) => Some(saved.items)
      case Text(raw) => if raw == "" then None else parsedText
  }

  /** What `useCart` hands to a component: the state and the hydration flag (dispatch is the provider itself). */
  datatype CartContextValue = CartContextValue(state: CartState, isHydrated: bool)

  datatype Lookup = Found(value: CartContextValue) | Thrown(message: string)

  /** `useCart`: a component outside any CartProvider gets an exception instead of a context. */
  function UseCart(context: Option<CartContextValue>): (r: Lookup)
    ensures r.Found? <==> context.Some?
    ensures r.Found? ==> r.value == context.value
    ensures r.Thrown? ==> r.message == OutsideProviderMessage
  {
    match context
    case Some(v) => Found(v)
    case None => Thrown(OutsideProviderMessage)
  }

  class CartProvider {
    var state: CartState
    var isHydrated: bool
    var store: map<string, Blob>

    /** Once hydrated, the store holds exactly the current state under the cart key. */
    ghost predicate Mirrored()
      reads this
    {
      isHydrated ==> StorageKey in store && store[StorageKey] == Json(state)
    }

    /** First render: `useReducer` starts empty, `useState(false)`, and the save effect skips its write. */
    constructor (store: map<string, Blob>)
      ensures state == EmptyCart && !isHydrated && this.store == store
      ensures Mirrored()
    {
      this.state := EmptyCart;
      this.isHydrated := false;
      this.store := store;
    }

    /**
     * The mount effect, followed by the save effect of the render it causes:
     * LOAD_CART when a stored cart was found, `isHydrated` on every path, then
     * the first write. It runs once, so the provider is not yet hydrated.
     */
    method Hydrate(parsedText: Option<seq<CartItem>>)
      requires !isHydrated
      modifies this
      ensures isHydrated && Mirrored()
      ensures var loaded := StoredItems(old(store), parsedText);
        state == if loaded.Some? then Reduce(old(state), LoadCart(loaded.value)) else old(state)
      ensures store == old(store)[StorageKey := Json(state)]
    {
      var loaded := StoredItems(store, parsedText);
      if loaded.Some? {
        state := Reduce(state, LoadCart(loaded.value));
      }
      isHydrated := true;
      store := store[StorageKey := Json(state)];
    }

    /** `dispatch(action)` and the save effect it triggers: every action produces a new state object, so every hydrated dispatch writes. */
    method Dispatch(action: CartAction)
      requires Mirrored()
      modifies this
      ensures Mirrored()
      ensures state == Reduce(old(state), action)
      ensures isHydrated == old(isHydrated)
      ensures store == if isHydrated then old(store)[StorageKey := Json(state)] else old(store)
    {
      state := Reduce(state, action);
      if isHydrated {
        store := store[StorageKey := Json(state)];
      }
    }

  }

  /** A page reload: a new provider over the same storage restores the items (the message is dropped). */
  method Reload(previous: CartProvider, parsedText: Option<seq<CartItem>>) returns (restored: CartState)
    requires previous.isHydrated && previous.Mirrored()
    ensures restored == CartState(previous.state.items, None)
  {
    var next := new CartProvider(previous.store);
    next.Hydrate(parsedText);
    restored := next.state;
  }

  /** Mounting over an empty or unreadable store leaves the cart empty and still hydrates. */
  lemma NothingStored(store: map<string, Blob>, parsedText: Option<seq<CartItem>>)
    requires StorageKey !in store || store[StorageKey] == Text("")
      || (store[StorageKey].Text? && parsedText == None)
    ensures StoredItems(store, parsedText) == None
  {
  }
}
