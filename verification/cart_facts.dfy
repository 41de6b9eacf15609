/** Properties of the cart slice that relate several dispatches, or a
    dispatch and the totals the cart panel and the navigation bar show. */
module CartFacts {
  import opened Common
  import opened Seqs
  import opened Cart

  // ---------------------------------------------------------------------
  // Looking up a line

  lemma LineForCons(x: CartItem, t: seq<CartItem>, k: LineKey)
    ensures LineFor([x] + t, k) == if KeyOf(x) == k then Some(x) else LineFor(t, k)
  {
    assert ([x] + t)[1..] == t;
  }

  lemma {:induction false} LineForAppend(t: seq<CartItem>, x: CartItem, k: LineKey)
    ensures LineFor(t + [x], k) ==
      if LineFor(t, k).Some? then LineFor(t, k)
      else if KeyOf(x) == k then Some(x)
      else None
    decreases |t|
  {
    if |t| == 0 {
      assert t + [x] == [x] + [];
      LineForCons(x, [], k);
    } else {
      assert t + [x] == [t[0]] + (t[1..] + [x]);
      assert t == [t[0]] + t[1..];
      LineForCons(t[0], t[1..] + [x], k);
      LineForCons(t[0], t[1..], k);
      LineForAppend(t[1..], x, k);
    }
  }

  /** Replacing lines by lines with the same keys, position by position,
      moves no lookup to another position. */
  lemma SameKeysSameIndex(a: seq<CartItem>, b: seq<CartItem>, k: LineKey)
    requires |a| == |b|
    requires forall j :: 0 <= j < |a| ==> KeyOf(a[j]) == KeyOf(b[j])
    ensures FindIndex(a, HasKey(k)) == FindIndex(b, HasKey(k))
  {
    FindIndexAgrees(a, HasKey(k), b, HasKey(k));
  }

  // ---------------------------------------------------------------------
  // Merge-add

  /** Adding registers exactly the incoming key. */
  lemma AddToCartKeys(s: CartState, item: CartItem)
    ensures Keys(AddToCart(s, item).items) == Keys(s.items) + {KeyOf(item)}
  {
    var r := AddToCart(s, item);
    if LineFor(s.items, KeyOf(item)).Some? {
      var i := FindIndex(s.items, HasKey(KeyOf(item))).value;
      assert KeyOf(s.items[i]) == KeyOf(item);
      assert forall j :: 0 <= j < |s.items| ==> KeyOf(r.items[j]) == KeyOf(s.items[j]);
    } else {
      assert KeyOf(r.items[|s.items|]) == KeyOf(item);
      assert forall j :: 0 <= j < |s.items| ==> r.items[j] == s.items[j];
    }
  }

  /** Adding leaves the line of every other key as it was. */
  lemma AddToCartOtherLines(s: CartState, item: CartItem, k: LineKey)
    requires k != KeyOf(item)
    ensures LineFor(AddToCart(s, item).items, k) == LineFor(s.items, k)
  {
    var r := AddToCart(s, item);
    if LineFor(s.items, KeyOf(item)).Some? {
      assert forall j :: 0 <= j < |s.items| ==> KeyOf(r.items[j]) == KeyOf(s.items[j]);
      SameKeysSameIndex(r.items, s.items, k);
    } else {
      LineForAppend(s.items, item, k);
    }
  }

  /** Adding a key the cart lacks appends the item. */
  lemma AddNewKey(s: CartState, item: CartItem)
    requires FindIndex(s.items, HasKey(KeyOf(item))).None?
    ensures AddToCart(s, item) == s.(items := s.items + [item])
  {
  }

  /** Adding a key the cart holds at `i` raises that line's quantity. */
  lemma AddExistingKey(s: CartState, item: CartItem, i: nat, line: CartItem)
    requires FindIndex(s.items, HasKey(KeyOf(item))) == Some(i) && s.items[i] == line
    ensures AddToCart(s, item).items == s.items[i := line.(quantity := line.quantity + item.quantity)]
  {
  }

  /** Adding the same key twice to a cart without it gives one line whose
      quantity is the sum and whose name, price and image are the first
      add's. */
  lemma AddSameKeyTwice(s: CartState, a: CartItem, b: CartItem)
    requires KeyOf(a) == KeyOf(b)
    requires LineFor(s.items, KeyOf(a)).None?
    ensures AddToCart(AddToCart(s, a), b).items == s.items + [a.(quantity := a.quantity + b.quantity)]
  {
    var k := KeyOf(a);
    var n := |s.items|;
    assert FindIndex(s.items, HasKey(k)).None?;
    AddNewKey(s, a);
    var s1 := AddToCart(s, a);
    FindIndexAfterMisses(s.items, a, HasKey(k));
    assert s1.items[n] == a;
    AddExistingKey(s1, b, n, a);
    var merged := a.(quantity := a.quantity + b.quantity);
    assert s1.items[n := merged] == s.items + [merged];
  }

  // ---------------------------------------------------------------------
  // Keys stay unique

  lemma {:induction false} FilterKeepsUnique(items: seq<CartItem>, p: CartItem -> bool)
    requires UniqueKeys(items)
    ensures UniqueKeys(Filter(items, p))
    decreases |items|
  {
    if |items| > 0 {
      var x, t := items[0], items[1..];
      assert items == [x] + t;
      var rest := Filter(t, p);
      FilterKeepsUnique(t, p);
      SubseqIn(rest, t);
      forall j | 0 <= j < |rest|
        ensures KeyOf(rest[j]) != KeyOf(x)
      {
        var m :| 0 <= m < |t| && t[m] == rest[j];
        assert t[m] == items[m + 1];
      }
      FilterCons(x, t, p);
    }
  }

  lemma AddToCartKeepsUnique(s: CartState, item: CartItem)
    requires UniqueKeys(s.items)
    ensures UniqueKeys(AddToCart(s, item).items)
  {
    var r := AddToCart(s, item);
    assert forall j :: 0 <= j < |s.items| ==> KeyOf(r.items[j]) == KeyOf(s.items[j]);
    if LineFor(s.items, KeyOf(item)).None? {
      assert forall j :: 0 <= j < |s.items| ==> !HasKey(KeyOf(item))(s.items[j]);
    }
  }

  lemma RemoveFromCartKeepsUnique(s: CartState, k: LineKey)
    requires UniqueKeys(s.items)
    ensures UniqueKeys(RemoveFromCart(s, k).items)
  {
    FilterKeepsUnique(s.items, Not(HasKey(k)));
  }

  lemma UpdateQuantityKeepsUnique(s: CartState, k: LineKey, quantity: int)
    requires UniqueKeys(s.items)
    ensures UniqueKeys(UpdateQuantity(s, k, quantity).items)
  {
    var r := UpdateQuantity(s, k, quantity);
    assert forall j :: 0 <= j < |s.items| ==> KeyOf(r.items[j]) == KeyOf(s.items[j]);
  }

  lemma ReduceKeepsUnique(s: CartState, a: CartAction)
    requires UniqueKeys(s.items)
    ensures UniqueKeys(Reduce(s, a).items)
  {
    match a
    case Add(item) => AddToCartKeepsUnique(s, item);
    case Remove(k) => RemoveFromCartKeepsUnique(s, k);
    case SetQuantity(k, q) => UpdateQuantityKeepsUnique(s, k, q);
    case _ =>
  }

  /** No sequence of dispatches puts two lines with the same key in a cart
      that had none. */
  lemma {:induction false} RunKeepsUnique(s: CartState, actions: seq<CartAction>)
    requires UniqueKeys(s.items)
    ensures UniqueKeys(Run(s, actions).items)
    decreases |actions|
  {
    if |actions| > 0 {
      ReduceKeepsUnique(s, actions[0]);
      RunKeepsUnique(Reduce(s, actions[0]), actions[1..]);
    }
  }

  /** From the empty cart, every reachable cart has unique keys. */
  lemma ReachableUnique(actions: seq<CartAction>)
    ensures UniqueKeys(Run(InitialCart, actions).items)
  {
    RunKeepsUnique(InitialCart, actions);
  }

  // ---------------------------------------------------------------------
  // Remove

  /** Removing a key leaves the lines of all other keys where lookups find
      them. */
  lemma {:induction false} RemoveKeepsOtherLines(items: seq<CartItem>, k: LineKey, k': LineKey)
    requires k' != k
    ensures LineFor(Filter(items, Not(HasKey(k))), k') == LineFor(items, k')
    decreases |items|
  {
    if |items| > 0 {
      var x, rest := items[0], items[1..];
      assert items == [x] + rest;
      RemoveKeepsOtherLines(rest, k, k');
      LineForCons(x, rest, k');
      if KeyOf(x) != k {
        LineForCons(x, Filter(rest, Not(HasKey(k))), k');
      }
    }
  }

  /** Two carts that differ only in lines with key `k` agree once `k` is
      removed. */
  lemma {:induction false} SameOutsideKey(a: seq<CartItem>, b: seq<CartItem>, k: LineKey)
    requires |a| == |b|
    requires forall j :: 0 <= j < |a| ==> a[j] == b[j] || (KeyOf(a[j]) == k && KeyOf(b[j]) == k)
    ensures Filter(a, Not(HasKey(k))) == Filter(b, Not(HasKey(k)))
    decreases |a|
  {
    if |a| > 0 {
      assert forall j :: 0 <= j < |a| - 1 ==> a[1..][j] == a[j + 1] && b[1..][j] == b[j + 1];
      SameOutsideKey(a[1..], b[1..], k);
      FilterUnfold(a, Not(HasKey(k)));
      FilterUnfold(b, Not(HasKey(k)));
    }
  }

  /** Removing a key undoes adding it: the cart ends as if only the remove
      had happened, and a cart that lacked the key is restored exactly. */
  lemma AddThenRemove(s: CartState, item: CartItem)
    ensures RemoveFromCart(AddToCart(s, item), KeyOf(item)) == RemoveFromCart(s, KeyOf(item))
    ensures LineFor(s.items, KeyOf(item)).None? ==> RemoveFromCart(AddToCart(s, item), KeyOf(item)) == s
  {
    var k := KeyOf(item);
    var r := AddToCart(s, item);
    if LineFor(s.items, k).Some? {
      SameOutsideKey(r.items, s.items, k);
    } else {
      FilterAppend(s.items, item, Not(HasKey(k)));
    }
  }

  /** Removing a key after setting its quantity is just removing it. */
  lemma UpdateThenRemove(s: CartState, k: LineKey, quantity: int)
    ensures RemoveFromCart(UpdateQuantity(s, k, quantity), k) == RemoveFromCart(s, k)
  {
    SameOutsideKey(UpdateQuantity(s, k, quantity).items, s.items, k);
  }

  /** A remove keeps every copy of each line with another key and no line
      with the key. */
  lemma RemoveFromCartCounts(s: CartState, k: LineKey)
    ensures forall x ::
      multiset(RemoveFromCart(s, k).items)[x] == if KeyOf(x) != k then multiset(s.items)[x] else 0
  {
    FilterCounts(s.items, Not(HasKey(k)));
  }

  /** After a remove, the key is gone and every other key's line is where
      it was before. */
  lemma RemoveFromCartLookups(s: CartState, k: LineKey, k': LineKey)
    ensures LineFor(RemoveFromCart(s, k).items, k).None?
    ensures k' != k ==> LineFor(RemoveFromCart(s, k).items, k') == LineFor(s.items, k')
  {
    var r := RemoveFromCart(s, k);
    assert forall j :: 0 <= j < |r.items| ==> !HasKey(k)(r.items[j]);
    if k' != k {
      RemoveKeepsOtherLines(s.items, k, k');
    }
  }

  /** With unique keys, the lines `k` selects are its one line or none. */
  lemma {:induction false} UniqueKeySelection(items: seq<CartItem>, k: LineKey)
    requires UniqueKeys(items)
    ensures Filter(items, HasKey(k)) == match LineFor(items, k)
      case Some(line) => [line]
      case None => []
    decreases |items|
  {
    if |items| > 0 {
      var x, rest := items[0], items[1..];
      assert items == [x] + rest;
      LineForCons(x, rest, k);
      if KeyOf(x) == k {
        assert forall j :: 0 <= j < |rest| ==> !HasKey(k)(rest[j]);
        FilterDropsAll(rest, HasKey(k));
      } else {
        UniqueKeySelection(rest, k);
      }
    }
  }

  /** Removing a line takes its quantity off the item count and its line
      total off the subtotal; removing an absent key changes neither. */
  lemma RemoveFromCartTotals(s: CartState, k: LineKey)
    requires UniqueKeys(s.items)
    ensures ItemCount(RemoveFromCart(s, k).items) == ItemCount(s.items) -
      (match LineFor(s.items, k) case Some(line) => line.quantity case None => 0)
    ensures Subtotal(RemoveFromCart(s, k).items) == Subtotal(s.items) -
      (match LineFor(s.items, k) case Some(line) => line.price * line.quantity case None => 0)
  {
    UniqueKeySelection(s.items, k);
    SumOfPartition(s.items, HasKey(k), Quantity);
    SumOfPartition(s.items, HasKey(k), LineTotal);
  }

  // ---------------------------------------------------------------------
  // Totals after add and update

  /** Adding `q` of an item raises the item count by exactly `q`, whether
      the line is new or merged. */
  lemma AddToCartItemCount(s: CartState, item: CartItem)
    ensures ItemCount(AddToCart(s, item).items) == ItemCount(s.items) + item.quantity
  {
    match FindIndex(s.items, HasKey(KeyOf(item)))
    case Some(i) =>
      var merged := s.items[i].(quantity := s.items[i].quantity + item.quantity);
      assert AddToCart(s, item).items == s.items[i := merged];
      SumOfUpdate(s.items, i, merged, Quantity);
    case None =>
      assert AddToCart(s, item).items == s.items + [item];
      SumOfAppend(s.items, item, Quantity);
  }

  lemma MergedLineTotal(line: CartItem, q: int)
    ensures LineTotal(line.(quantity := line.quantity + q)) == LineTotal(line) + q * line.price
  {
    assert line.price * (line.quantity + q) == line.price * line.quantity + q * line.price;
  }

  /** Adding `q` of an item raises the subtotal by `q` times the price of
      the line it lands in: the price already in the cart when the key was
      there, the incoming price otherwise. */
  lemma AddToCartSubtotal(s: CartState, item: CartItem)
    ensures Subtotal(AddToCart(s, item).items) == Subtotal(s.items) + item.quantity *
      (match LineFor(s.items, KeyOf(item)) case Some(line) => line.price case None => item.price)
  {
    match FindIndex(s.items, HasKey(KeyOf(item)))
    case Some(i) =>
      assert LineFor(s.items, KeyOf(item)) == Some(s.items[i]);
      MergedSubtotal(s, item, i);
    case None =>
      assert LineFor(s.items, KeyOf(item)) == None;
      AppendedSubtotal(s, item);
  }

  lemma MergedSubtotal(s: CartState, item: CartItem, i: nat)
    requires FindIndex(s.items, HasKey(KeyOf(item))) == Some(i)
    ensures Subtotal(AddToCart(s, item).items) == Subtotal(s.items) + item.quantity * s.items[i].price
  {
    var line := s.items[i];
    var merged := line.(quantity := line.quantity + item.quantity);
    var gain := item.quantity * line.price;
    MergedLineTotal(line, item.quantity);
    assert LineTotal(merged) == LineTotal(line) + gain;
    SumOfUpdate(s.items, i, merged, LineTotal);
    assert SumOf(s.items[i := merged], LineTotal) == SumOf(s.items, LineTotal) + gain;
    assert AddToCart(s, item).items == s.items[i := merged];
  }

  lemma AppendedSubtotal(s: CartState, item: CartItem)
    requires FindIndex(s.items, HasKey(KeyOf(item))).None?
    ensures Subtotal(AddToCart(s, item).items) == Subtotal(s.items) + item.quantity * item.price
  {
    assert AddToCart(s, item).items == s.items + [item];
    SumOfAppend(s.items, item, LineTotal);
    assert LineTotal(item) == item.quantity * item.price;
  }

  lemma SetLineTotal(line: CartItem, q: int)
    ensures LineTotal(line.(quantity := q)) == LineTotal(line) + line.price * (q - line.quantity)
  {
    assert line.price * q == line.price * line.quantity + line.price * (q - line.quantity);
  }

  /** Setting a line's quantity moves the totals by the difference. */
  lemma UpdateQuantityTotals(s: CartState, k: LineKey, quantity: int)
    ensures ItemCount(UpdateQuantity(s, k, quantity).items) == ItemCount(s.items) +
      (match LineFor(s.items, k) case Some(line) => quantity - line.quantity case None => 0)
    ensures Subtotal(UpdateQuantity(s, k, quantity).items) == Subtotal(s.items) +
      (match LineFor(s.items, k) case Some(line) => line.price * (quantity - line.quantity) case None => 0)
  {
    match FindIndex(s.items, HasKey(k))
    case Some(i) =>
      assert LineFor(s.items, k) == Some(s.items[i]);
      UpdatedTotals(s, k, quantity, i);
    case None =>
      assert UpdateQuantity(s, k, quantity) == s;
  }

  lemma UpdatedTotals(s: CartState, k: LineKey, quantity: int, i: nat)
    requires FindIndex(s.items, HasKey(k)) == Some(i)
    ensures ItemCount(UpdateQuantity(s, k, quantity).items) == ItemCount(s.items) + quantity - s.items[i].quantity
    ensures Subtotal(UpdateQuantity(s, k, quantity).items) ==
      Subtotal(s.items) + s.items[i].price * (quantity - s.items[i].quantity)
  {
    var line := s.items[i];
    var updated := line.(quantity := quantity);
    var delta := line.price * (quantity - line.quantity);
    assert UpdateQuantity(s, k, quantity).items == s.items[i := updated];
    SumOfUpdate(s.items, i, updated, Quantity);
    SumOfUpdate(s.items, i, updated, LineTotal);
    SetLineTotal(line, quantity);
    assert SumOf(s.items[i := updated], LineTotal) == SumOf(s.items, LineTotal) + delta;
  }

  // ---------------------------------------------------------------------
  // Quantities stay positive when callers pass positive ones

  predicate PositiveQuantities(items: seq<CartItem>)
  {
    forall j :: 0 <= j < |items| ==> items[j].quantity >= 1
  }

  /** The guards of the product page and of the cart panel's -/+ buttons:
      every quantity they send is at least 1. The panel's typed "Update"
      path has no such guard. */
  predicate Guarded(a: CartAction)
  {
    match a
    case Add(item) => item.quantity >= 1
    case SetQuantity(_, q) => q >= 1
    case _ => true
  }

  lemma ReduceKeepsPositive(s: CartState, a: CartAction)
    requires PositiveQuantities(s.items) && Guarded(a)
    ensures PositiveQuantities(Reduce(s, a).items)
  {
    match a
    case Remove(k) =>
      var r := RemoveFromCart(s, k);
      SubseqIn(r.items, s.items);
    case _ =>
  }

  /** If every dispatch passes a quantity of at least 1, every line keeps a
      quantity of at least 1. */
  lemma {:induction false} GuardedRunKeepsPositive(s: CartState, actions: seq<CartAction>)
    requires PositiveQuantities(s.items)
    requires forall i :: 0 <= i < |actions| ==> Guarded(actions[i])
    ensures PositiveQuantities(Run(s, actions).items)
    decreases |actions|
  {
    if |actions| > 0 {
      ReduceKeepsPositive(s, actions[0]);
      GuardedRunKeepsPositive(Reduce(s, actions[0]), actions[1..]);
    }
  }

  // ---------------------------------------------------------------------
  // Visibility

  predicate IsVisibility(a: CartAction)
  {
    a.Toggle? || a.Close? || a.Open?
  }

  /** The panel flag and the line items are independent: a visibility
      action commutes with every other action. */
  lemma VisibilityCommutes(s: CartState, a: CartAction, v: CartAction)
    requires !IsVisibility(a) && IsVisibility(v)
    ensures Reduce(Reduce(s, a), v) == Reduce(Reduce(s, v), a)
  {
    var b := Reduce(s, v).isOpen;
    assert Reduce(s, v) == s.(isOpen := b);
    ItemsIgnoreFlag(s, a, b);
    assert Reduce(s, a).isOpen == s.isOpen;
    assert Reduce(Reduce(s, a), v) == Reduce(s, a).(isOpen := b);
  }

  /** What an item action does to the lines does not depend on the panel
      flag, and it keeps the flag. */
  lemma ItemsIgnoreFlag(s: CartState, a: CartAction, b: bool)
    requires !IsVisibility(a)
    ensures Reduce(s, a).isOpen == s.isOpen
    ensures Reduce(s.(isOpen := b), a) == Reduce(s, a).(isOpen := b)
  {
    match a
    case Add(item) =>
      AddIgnoresFlag(s, item, b);
    case Remove(k) =>
    case SetQuantity(k, q) =>
      UpdateIgnoresFlag(s, k, q, b);
    case Clear =>
  }

  lemma AddIgnoresFlag(s: CartState, item: CartItem, b: bool)
    ensures AddToCart(s.(isOpen := b), item) == AddToCart(s, item).(isOpen := b)
  {
    var t := s.(isOpen := b);
    match FindIndex(s.items, HasKey(KeyOf(item)))
    case Some(i) =>
      var items := s.items[i := s.items[i].(quantity := s.items[i].quantity + item.quantity)];
      assert AddToCart(s, item) == s.(items := items);
      assert AddToCart(t, item) == t.(items := items);
    case None =>
      assert AddToCart(s, item) == s.(items := s.items + [item]);
      assert AddToCart(t, item) == t.(items := s.items + [item]);
  }

  lemma UpdateIgnoresFlag(s: CartState, k: LineKey, q: int, b: bool)
    ensures UpdateQuantity(s.(isOpen := b), k, q) == UpdateQuantity(s, k, q).(isOpen := b)
  {
    match FindIndex(s.items, HasKey(k))
    case Some(i) =>
    case None =>
  }

  /** Toggling twice restores the flag; closing and opening are
      idempotent. */
  lemma VisibilityAlgebra(s: CartState)
    ensures ToggleCart(ToggleCart(s)) == s
    ensures CloseCart(CloseCart(s)) == CloseCart(s)
    ensures OpenCart(OpenCart(s)) == OpenCart(s)
    ensures ToggleCart(CloseCart(s)) == OpenCart(s)
    ensures ToggleCart(OpenCart(s)) == CloseCart(s)
  {
  }

  // ---------------------------------------------------------------------
  // A worked session

  /** A second line with another key is appended after the first. */
  lemma AddSecondLine(m: CartItem, l: CartItem, open: bool)
    requires KeyOf(l) != KeyOf(m)
    ensures AddToCart(CartState([m], open), l) == CartState([m, l], open)
  {
    LineForCons(m, [], KeyOf(l));
  }

  /** Setting the first of two lines to 0 keeps it, with quantity 0. */
  lemma ZeroFirstLine(m: CartItem, l: CartItem, open: bool)
    requires KeyOf(l) != KeyOf(m)
    ensures UpdateQuantity(CartState([m, l], open), KeyOf(m), 0) == CartState([m.(quantity := 0), l], open)
  {
    LineForCons(m, [l], KeyOf(m));
  }

  /** Removing the second of two lines leaves the first. */
  lemma RemoveSecondLine(m: CartItem, l: CartItem, open: bool)
    requires KeyOf(l) != KeyOf(m)
    ensures RemoveFromCart(CartState([m, l], open), KeyOf(l)) == CartState([m], open)
  {
    FilterCons(m, [l], Not(HasKey(KeyOf(l))));
    FilterCons(l, [], Not(HasKey(KeyOf(l))));
  }

  /** Removing a key the cart does not hold changes nothing. */
  lemma RemoveMissingLine(m: CartItem, k: LineKey, open: bool)
    requires k != KeyOf(m)
    ensures RemoveFromCart(CartState([m], open), k) == CartState([m], open)
  {
    LineForCons(m, [], k);
  }

  /** Dispatching a list of actions is dispatching the first, then the
      rest. */
  lemma RunCons(s: CartState, a: CartAction, rest: seq<CartAction>)
    ensures Run(s, [a] + rest) == Run(Reduce(s, a), rest)
  {
    assert ([a] + rest)[1..] == rest;
  }

  /** Dispatching two lists one after the other is dispatching their
      concatenation. */
  lemma {:induction false} RunAppend(s: CartState, first: seq<CartAction>, second: seq<CartAction>)
    ensures Run(s, first + second) == Run(Run(s, first), second)
    decreases |first|
  {
    if |first| == 0 {
      assert first + second == second;
    } else {
      assert (first + second)[0] == first[0] && (first + second)[1..] == first[1..] + second;
      RunAppend(Reduce(s, first[0]), first[1..], second);
    }
  }

  /** One shirt in size M added with quantity 1 and then 2 merges into one
      line of 3; size L gets a line of its own; the panel stays closed; the
      badge shows 4 and the subtotal is 4 times the price. */
  lemma ShirtLines(m: CartItem)
    requires m.quantity == 1 && m.price == 2000 && m.selectedSize == Some("M")
    ensures
      var l := m.(selectedSize := Some("L"));
      var r := Run(InitialCart, [Add(m), Add(m.(quantity := 2)), Add(l)]);
      && r == CartState([m.(quantity := 3), l], false)
      && ItemCount(r.items) == 4
      && Subtotal(r.items) == 8000
  {
    var l := m.(selectedSize := Some("L"));
    var m3 := m.(quantity := 3);
    AddSameKeyTwice(InitialCart, m, m.(quantity := 2));
    AddSecondLine(m3, l, false);
    RunCons(InitialCart, Add(m), [Add(m.(quantity := 2)), Add(l)]);
    RunCons(AddToCart(InitialCart, m), Add(m.(quantity := 2)), [Add(l)]);
    RunCons(CartState([m3], false), Add(l), []);
    assert [m3, l][1..] == [l] && [l][1..] == [];
    assert SumOf([l], Quantity) == Quantity(l) + SumOf([], Quantity) == 1;
    assert SumOf([l], LineTotal) == LineTotal(l) + SumOf([], LineTotal) == 2000;
    assert SumOf([m3, l], Quantity) == Quantity(m3) + SumOf([l], Quantity);
    assert SumOf([m3, l], LineTotal) == LineTotal(m3) + SumOf([l], LineTotal);
  }

  /** The edits that follow, on a closed cart holding an M line and an L
      line of any quantities: a quantity of 0 for M is stored as given, not
      clamped; removing size L and then size XL, which was never added,
      leaves the M line alone. */
  lemma ShirtEdits(m: CartItem, l: CartItem)
    requires m.selectedSize == Some("M") && KeyOf(l) == KeyOf(m.(selectedSize := Some("L")))
    ensures
      var xl := m.(selectedSize := Some("XL"));
      Run(CartState([m, l], false), [SetQuantity(KeyOf(m), 0), Remove(KeyOf(l)), Remove(KeyOf(xl))])
        == CartState([m.(quantity := 0)], false)
  {
    var xl := m.(selectedSize := Some("XL"));
    var m0 := m.(quantity := 0);
    ZeroFirstLine(m, l, false);
    RemoveSecondLine(m0, l, false);
    RemoveMissingLine(m0, KeyOf(xl), false);
    RunCons(CartState([m, l], false), SetQuantity(KeyOf(m), 0), [Remove(KeyOf(l)), Remove(KeyOf(xl))]);
    RunCons(CartState([m0, l], false), Remove(KeyOf(l)), [Remove(KeyOf(xl))]);
    RunCons(CartState([m0], false), Remove(KeyOf(xl)), []);
  }

  /** The whole session from the empty cart: the three adds and then the
      three edits leave one M line with quantity 0 in a closed cart. */
  lemma ShirtSession(m: CartItem)
    requires m.quantity == 1 && m.price == 2000 && m.selectedSize == Some("M")
    ensures
      var l := m.(selectedSize := Some("L"));
      var xl := m.(selectedSize := Some("XL"));
      Run(InitialCart, [Add(m), Add(m.(quantity := 2)), Add(l),
                        SetQuantity(KeyOf(m), 0), Remove(KeyOf(l)), Remove(KeyOf(xl))])
        == CartState([m.(quantity := 0)], false)
  {
    var l := m.(selectedSize := Some("L"));
    var xl := m.(selectedSize := Some("XL"));
    var adds := [Add(m), Add(m.(quantity := 2)), Add(l)];
    var edits := [SetQuantity(KeyOf(m), 0), Remove(KeyOf(l)), Remove(KeyOf(xl))];
    assert adds + edits == [Add(m), Add(m.(quantity := 2)), Add(l),
                            SetQuantity(KeyOf(m), 0), Remove(KeyOf(l)), Remove(KeyOf(xl))];
    RunAppend(InitialCart, adds, edits);
    ShirtLines(m);
    ShirtEdits(m.(quantity := 3), l);
    assert KeyOf(m.(quantity := 3)) == KeyOf(m);
    assert m.(quantity := 3).(selectedSize := Some("XL")) == xl.(quantity := 3);
  }
}
