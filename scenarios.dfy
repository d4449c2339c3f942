/**
 * Two concrete runs of the API over a fresh store showing the gaps in its
 * stock handling: merging into an existing cart row checks only the newly
 * requested quantity, and checkout never decrements stock.
 */
module Scenarios {
  import opened Wrappers
  import opened Schema
  import opened Storage
  import opened Routes

  /** A product with one unit in stock. */
  function LastUnit(): InsertProduct {
    InsertProduct("Lamp", "lamp", None, 2500, None, 1, None,
                  None, None, Some(1), None, None, None, None, None)
  }

  function Shopper(id: int, name: string): User {
    User(id, name, "secret", None, None, None, Some(DefaultRole))
  }

  /** Adding one unit twice leaves a cart row of two units of a product with one in stock. */
  method MergeExceedsStock() returns (first: int, second: int, quantity: int, stock: int)
    ensures first == StatusCreated && second == StatusOk
    ensures quantity == 2 && stock == 1
  {
    var store := new MemStorage();
    var p := store.CreateProduct(LastUnit());
    var ann := Shopper(1, "ann");
    first := AddToCart(store, Some(ann), p.id, 1);
    second := AddToCart(store, Some(ann), p.id, 1);
    quantity := store.cartItems[1].quantity;
    stock := store.products[p.id].stock;
  }

  /**
   * A shopper buys the only unit; afterwards the stock still reads one, so a
   * second shopper can put the same unit in their cart.
   */
  method CheckoutKeepsStock() returns (ordered: int, stock: int, addedAgain: int)
    ensures ordered == StatusCreated && stock == 1 && addedAgain == StatusCreated
  {
    var store := new MemStorage();
    var p := store.CreateProduct(LastUnit());
    var ann, bob := Shopper(1, "ann"), Shopper(2, "bob");
    var added := AddToCart(store, Some(ann), p.id, 1);
    assert store.cartItems == map[1 := CartItem(1, 1, p.id, 1)];
    assert store.cartItems[1] in store.CartOf(1);
    var order;
    ordered, order := PlaceOrder(store, Some(ann), 0);
    stock := store.products[p.id].stock;
    addedAgain := AddToCart(store, Some(bob), p.id, 1);
  }
}
