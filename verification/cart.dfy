/** The cart slice: an ordered list of line items and the visibility flag of
    the cart panel. A line is identified by the triple (product id, selected
    size, selected colour); an absent size or colour is a value of its own
    that matches only another absent one, as JavaScript's `===` on
    `undefined` does. */
module Cart {
  import opened Common
  import opened Seqs

  /** A cart line, with the fields the product page sends. Prices are whole
      cents. The quantity is whatever the caller passed: the store never
      checks it. */
  datatype CartItem = CartItem(
    id: string,
    name: string,
    price: int,
    image: string,
    quantity: int,
    selectedSize: Option<string>,
    selectedColor: Option<string>)

  /** The identity of a line. */
  datatype LineKey = LineKey(id: string, selectedSize: Option<string>, selectedColor: Option<string>)

  function KeyOf(item: CartItem): LineKey
  {
    LineKey(item.id, item.selectedSize, item.selectedColor)
  }

  /** The test the reducers hand to `find` and `filter`. */
  function HasKey(k: LineKey): CartItem -> bool
  {
    item => KeyOf(item) == k
  }

  datatype CartState = CartState(items: seq<CartItem>, isOpen: bool)

  const InitialCart := CartState([], false)

  /** The line `find` locates for key `k`, if any. */
  function LineFor(items: seq<CartItem>, k: LineKey): Option<CartItem>
  {
    match FindIndex(items, HasKey(k))
    case Some(i) => Some(items[i])
    case None => None
  }

  /** No two lines share a key. */
  predicate UniqueKeys(items: seq<CartItem>)
  {
    forall i, j :: 0 <= i < j < |items| ==> KeyOf(items[i]) != KeyOf(items[j])
  }

  /** The keys present, in any order. */
  function Keys(items: seq<CartItem>): set<LineKey>
  {
    set i | 0 <= i < |items| :: KeyOf(items[i])
  }

  // ---------------------------------------------------------------------
  // The case reducers

  /** Merge-add: a line with the incoming key gets the incoming quantity
      added and keeps its own name, price and image; otherwise the item is
      appended. */
  function AddToCart(s: CartState, item: CartItem): (r: CartState)
    ensures r.isOpen == s.isOpen
    ensures LineFor(s.items, KeyOf(item)).Some? ==>
      && |r.items| == |s.items|
      && var line := LineFor(s.items, KeyOf(item)).value;
         LineFor(r.items, KeyOf(item)) == Some(line.(quantity := line.quantity + item.quantity))
    ensures LineFor(s.items, KeyOf(item)).None? ==> r.items == s.items + [item]
    ensures forall j :: 0 <= j < |s.items| ==>
      || r.items[j] == s.items[j]
      || (KeyOf(s.items[j]) == KeyOf(item) &&
          r.items[j] == s.items[j].(quantity := s.items[j].quantity + item.quantity))
    ensures forall j :: 0 <= j < |s.items| && FindIndex(s.items, HasKey(KeyOf(item))) != Some(j) ==>
      r.items[j] == s.items[j]
  {
    match FindIndex(s.items, HasKey(KeyOf(item)))
    case Some(i) =>
      var line := s.items[i];
      ReplaceFirstMatch(s.items, i, KeyOf(item), line.(quantity := line.quantity + item.quantity));
      s.(items := s.items[i := line.(quantity := line.quantity + item.quantity)])
    case None =>
      s.(items := s.items + [item])
  }

  /** Replacing the first line with key `k` by another line with key `k`
      makes the lookup find the replacement. */
  lemma ReplaceFirstMatch(items: seq<CartItem>, i: nat, k: LineKey, line: CartItem)
    requires FindIndex(items, HasKey(k)) == Some(i)
    requires KeyOf(line) == k
    ensures LineFor(items[i := line], k) == Some(line)
  {
    FindIndexAgrees(items[i := line], HasKey(k), items, HasKey(k));
  }

  /** Drops every line whose key is `k`. */
  function RemoveFromCart(s: CartState, k: LineKey): (r: CartState)
    ensures r.isOpen == s.isOpen
    ensures IsSubseq(r.items, s.items)
    ensures forall j :: 0 <= j < |r.items| ==> KeyOf(r.items[j]) != k
    ensures forall j :: 0 <= j < |s.items| && KeyOf(s.items[j]) != k ==> s.items[j] in r.items
    ensures LineFor(s.items, k).None? ==> r.items == s.items
  {
    AbsentKeyFilter(s.items, k);
    s.(items := Filter(s.items, Not(HasKey(k))))
  }

  lemma AbsentKeyFilter(items: seq<CartItem>, k: LineKey)
    ensures LineFor(items, k).None? ==> Filter(items, Not(HasKey(k))) == items
  {
    if LineFor(items, k).None? {
      FilterKeepsAll(items, Not(HasKey(k)));
    }
  }

  /** Sets the quantity of the line with key `k` to `quantity`, as given:
      zero and negative values are stored too. */
  function UpdateQuantity(s: CartState, k: LineKey, quantity: int): (r: CartState)
    ensures r.isOpen == s.isOpen
    ensures |r.items| == |s.items|
    ensures LineFor(s.items, k).None? ==> r == s
    ensures LineFor(s.items, k).Some? ==>
      LineFor(r.items, k) == Some(LineFor(s.items, k).value.(quantity := quantity))
    ensures forall j :: 0 <= j < |s.items| ==>
      || r.items[j] == s.items[j]
      || (KeyOf(s.items[j]) == k && r.items[j] == s.items[j].(quantity := quantity))
    ensures forall j :: 0 <= j < |s.items| && FindIndex(s.items, HasKey(k)) != Some(j) ==>
      r.items[j] == s.items[j]
  {
    match FindIndex(s.items, HasKey(k))
    case Some(i) =>
      ReplaceFirstMatch(s.items, i, k, s.items[i].(quantity := quantity));
      s.(items := s.items[i := s.items[i].(quantity := quantity)])
    case None => s
  }

  function ClearCart(s: CartState): (r: CartState)
    ensures r.items == [] && r.isOpen == s.isOpen
  {
    s.(items := [])
  }

  function ToggleCart(s: CartState): (r: CartState)
    ensures r.items == s.items && r.isOpen != s.isOpen
  {
    s.(isOpen := !s.isOpen)
  }

  function CloseCart(s: CartState): (r: CartState)
    ensures r.items == s.items && !r.isOpen
  {
    s.(isOpen := false)
  }

  function OpenCart(s: CartState): (r: CartState)
    ensures r.items == s.items && r.isOpen
  {
    s.(isOpen := true)
  }

  // ---------------------------------------------------------------------
  // The slice reducer and action sequences

  datatype CartAction =
    | Add(item: CartItem)
    | Remove(key: LineKey)
    | SetQuantity(key: LineKey, quantity: int)
    | Clear
    | Toggle
    | Close
    | Open

  function Reduce(s: CartState, a: CartAction): CartState
  {
    match a
    case Add(item) => AddToCart(s, item)
    case Remove(k) => RemoveFromCart(s, k)
    case SetQuantity(k, q) => UpdateQuantity(s, k, q)
    case Clear => ClearCart(s)
    case Toggle => ToggleCart(s)
    case Close => CloseCart(s)
    case Open => OpenCart(s)
  }

  /** Dispatches the actions in order. */
  function Run(s: CartState, actions: seq<CartAction>): CartState
    decreases |actions|
  {
    if |actions| == 0 then s else Run(Reduce(s, actions[0]), actions[1..])
  }

  // ---------------------------------------------------------------------
  // Derived values the cart panel and the navigation bar compute

  function Quantity(item: CartItem): int { item.quantity }

  function LineTotal(item: CartItem): int { item.price * item.quantity }

  /** The badge count on the cart icon: the sum of the quantities. */
  function ItemCount(items: seq<CartItem>): int
  {
    SumOf(items, Quantity)
  }

  /** The cart panel's subtotal: the sum of price times quantity. */
  function Subtotal(items: seq<CartItem>): int
  {
    SumOf(items, LineTotal)
  }
}
