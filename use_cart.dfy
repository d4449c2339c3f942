/**
 * The cart context of the client: the fetched cart lines with their item
 * count and subtotal, the rule that the cart is fetched only for a signed-in
 * user, and the check that `useCart` runs inside its provider.
 */
module UseCart {
  import opened Wrappers
  import opened Schema
  import Seqs

  function Quantity(l: CartLine): int { l.item.quantity }

  /** What one line costs: the product's current price times the quantity. */
  function LineTotal(l: CartLine): int { l.product.price * l.item.quantity }

  /** `cartItems.reduce((total, item) => total + item.quantity, 0)`. */
  function TotalItems(lines: seq<CartLine>): int {
    Seqs.SumBy(lines, Quantity)
  }

  /** `cartItems.reduce((total, item) => total + item.product.price * item.quantity, 0)`. */
  function Subtotal(lines: seq<CartLine>): int {
    Seqs.SumBy(lines, LineTotal)
  }

  /** Each line holds at least one unit, so there are at least as many items as lines. */
  lemma {:induction false} TotalItemsAtLeastLines(lines: seq<CartLine>)
    requires forall i :: 0 <= i < |lines| ==> lines[i].item.quantity >= 1
    ensures TotalItems(lines) >= |lines|
    ensures lines == [] <==> TotalItems(lines) == 0
    decreases |lines|
  {
    if lines != [] {
      TotalItemsAtLeastLines(lines[..|lines| - 1]);
    }
  }

  /** With non-negative prices and quantities the subtotal is never negative. */
  lemma {:induction false} SubtotalNonNegative(lines: seq<CartLine>)
    requires forall i :: 0 <= i < |lines| ==> lines[i].product.price >= 0 && lines[i].item.quantity >= 0
    ensures Subtotal(lines) >= 0
    decreases |lines|
  {
    if lines != [] {
      SubtotalNonNegative(lines[..|lines| - 1]);
    }
  }

  /** Splitting a cart splits its subtotal and its item count. */
  lemma SubtotalSplits(a: seq<CartLine>, b: seq<CartLine>)
    ensures Subtotal(a + b) == Subtotal(a) + Subtotal(b)
    ensures TotalItems(a + b) == TotalItems(a) + TotalItems(b)
  {
    Seqs.SumByAppend(a, b, LineTotal);
    Seqs.SumByAppend(a, b, Quantity);
  }

  /** The order of the lines does not matter. */
  lemma SubtotalOrderFree(a: seq<CartLine>, b: seq<CartLine>)
    requires multiset(a) == multiset(b)
    ensures Subtotal(a) == Subtotal(b) && TotalItems(a) == TotalItems(b)
  {
    Seqs.SumByPermutation(a, b, LineTotal);
    Seqs.SumByPermutation(a, b, Quantity);
  }

  datatype CartContext = CartContext(cartItems: seq<CartLine>, totalItems: int, subtotal: int)

  /** The cart query runs only for a signed-in user. */
  predicate QueryEnabled(user: Option<User>) {
    user.Some?
  }

  /**
   * The value `CartProvider` publishes: the fetched lines (none while the
   * query is disabled or has no data) and their totals.
   */
  function Provide(user: Option<User>, fetched: Option<seq<CartLine>>): (ctx: CartContext)
    ensures !QueryEnabled(user) ==> ctx.cartItems == [] && ctx.totalItems == 0 && ctx.subtotal == 0
    ensures QueryEnabled(user) && fetched.Some? ==> ctx.cartItems == fetched.value
    ensures fetched.None? ==> ctx.cartItems == []
    ensures ctx.totalItems == TotalItems(ctx.cartItems) && ctx.subtotal == Subtotal(ctx.cartItems)
  {
    var lines := if QueryEnabled(user) then fetched.GetOr([]) else [];
    CartContext(lines, TotalItems(lines), Subtotal(lines))
  }

  const OutsideProvider: string := "useCart must be used within a CartProvider"

  /** `useCart()`: the surrounding provider's value, or the error it throws without one. */
  function UseCart(context: Option<CartContext>): (r: Result<CartContext, string>)
    ensures r.Err? <==> context.None?
    ensures r.Err? ==> r.error == OutsideProvider
    ensures r.Ok? ==> r.value == context.value
  {
    match context
    case None => Err(OutsideProvider)
    case Some(c) => Ok(c)
  }
}
