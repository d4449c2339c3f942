/**
 * The HTTP handlers of the shop's API over the in-memory store. The signed-in
 * user is `Some(user)` (authentication itself is not modelled); each handler
 * returns the response status and the value it sends as JSON. A storage
 * failure (a cart or order line whose product is gone, a rejected request
 * body) is passed to the error middleware, which answers 500.
 */
module Routes {
  import opened Wrappers
  import opened Schema
  import opened Storage
  import UseCart

  const StatusOk := 200
  const StatusCreated := 201
  const StatusNoContent := 204
  const StatusBadRequest := 400
  const StatusUnauthorized := 401
  const StatusForbidden := 403
  const StatusNotFound := 404
  const StatusServerError := 500

  /** The request's page size for analytics when `days` is absent, not a number or zero. */
  const DefaultAnalyticsDays := 7
  /** How many best sellers the analytics endpoint reports. */
  const BestSellerCount := 5

  predicate IsAdmin(u: User) {
    u.role == Some(AdminRole)
  }

  /** A query parameter that is present and a non-empty string. */
  predicate Given(q: Option<string>) {
    q.Some? && q.value != ""
  }

  /** `parseInt(days) || 7`: a missing or unparsable value and 0 both fall back to 7. */
  function AnalyticsDays(days: Option<int>): (d: int)
    ensures days.None? ==> d == DefaultAnalyticsDays
    ensures days.Some? && days.value == 0 ==> d == DefaultAnalyticsDays
    ensures days.Some? && days.value != 0 ==> d == days.value
  {
    match days
    case None => DefaultAnalyticsDays
    case Some(n) => if n == 0 then DefaultAnalyticsDays else n
  }

  /** GET /api/categories */
  method ListCategories(store: MemStorage) returns (status: int, categories: seq<Category>)
    requires store.Valid()
    ensures status == StatusOk
    ensures |categories| == |store.categories|
    ensures forall k :: k in store.categories ==> store.categories[k] in categories
    ensures forall c :: c in categories ==> c.id in store.categories && store.categories[c.id] == c
    ensures forall i, j :: 0 <= i < j < |categories| ==> categories[i].id < categories[j].id
  {
    return StatusOk, store.GetCategories();
  }

  /** GET /api/categories/:slug */
  method ShowCategory(store: MemStorage, slug: string) returns (status: int, category: Option<Category>)
    requires store.Valid()
    ensures status == StatusNotFound <==> forall k :: k in store.categories ==> store.categories[k].slug != slug
    ensures status == StatusOk || status == StatusNotFound
    ensures status == StatusOk ==>
              category.Some? && category.value.slug == slug
              && category.value.id in store.categories && store.categories[category.value.id] == category.value
    ensures status == StatusNotFound ==> category.None?
  {
    category := store.GetCategoryBySlug(slug);
    status := if category.None? then StatusNotFound else StatusOk;
  }

  /**
   * GET /api/products: a non-empty search wins over a category slug, which
   * wins over `featured=true`, then `featured=new`; otherwise every product.
   */
  method ListProducts(store: MemStorage, search: Option<string>, category: Option<string>, featured: Option<string>)
    returns (status: int, products: seq<Product>)
    requires store.Valid()
    ensures status == StatusNotFound <==>
              !Given(search) && Given(category) && store.GetCategoryBySlug(category.value).None?
    ensures status == StatusOk || status == StatusNotFound
    ensures status == StatusNotFound ==> products == []
    ensures Given(search) ==> products == store.SearchProducts(search.value)
    ensures !Given(search) && Given(category) && store.GetCategoryBySlug(category.value).Some? ==>
              products == store.GetProductsByCategory(store.GetCategoryBySlug(category.value).value.id)
    ensures !Given(search) && !Given(category) && featured == Some("true") ==>
              products == store.GetFeaturedProducts()
    ensures !Given(search) && !Given(category) && featured == Some("new") ==>
              products == store.GetNewProducts()
    ensures !Given(search) && !Given(category) && featured != Some("true") && featured != Some("new") ==>
              products == store.GetProducts()
  {
    if Given(search) {
      return StatusOk, store.SearchProducts(search.value);
    }
    if Given(category) {
      var c := store.GetCategoryBySlug(category.value);
      if c.None? {
        return StatusNotFound, [];
      }
      return StatusOk, store.GetProductsByCategory(c.value.id);
    }
    if featured == Some("true") {
      return StatusOk, store.GetFeaturedProducts();
    }
    if featured == Some("new") {
      return StatusOk, store.GetNewProducts();
    }
    return StatusOk, store.GetProducts();
  }

  /** GET /api/products/:slug */
  method ShowProduct(store: MemStorage, slug: string) returns (status: int, product: Option<Product>)
    requires store.Valid()
    ensures status == StatusNotFound <==> forall k :: k in store.products ==> store.products[k].slug != slug
    ensures status == StatusOk || status == StatusNotFound
    ensures status == StatusOk ==>
              product.Some? && product.value.slug == slug
              && product.value.id in store.products && store.products[product.value.id] == product.value
    ensures status == StatusNotFound ==> product.None?
  {
    product := store.GetProductBySlug(slug);
    status := if product.None? then StatusNotFound else StatusOk;
  }

  /** GET /api/cart */
  method ShowCart(store: MemStorage, user: Option<User>) returns (status: int, lines: seq<CartLine>)
    requires store.Valid()
    ensures user.None? <==> status == StatusUnauthorized
    ensures status == StatusUnauthorized || status == StatusOk || status == StatusServerError
    ensures user.Some? ==>
              (status == StatusServerError <==> store.GetCartItems(user.value.id).Err?)
    ensures status == StatusOk ==> lines == store.GetCartItems(user.value.id).value
    ensures status != StatusOk ==> lines == []
  {
    if user.None? {
      return StatusUnauthorized, [];
    }
    var r := store.GetCartItems(user.value.id);
    if r.Err? {
      return StatusServerError, [];
    }
    return StatusOk, r.value;
  }

  /**
   * POST /api/cart. When the user already has a row for the product, the
   * requested quantity is added to it; only the requested quantity, not the
   * combined one, is checked against the stock.
   */
  method AddToCart(store: MemStorage, user: Option<User>, productId: int, quantity: int) returns (status: int)
    requires store.Valid()
    modifies store`cartItems, store`cartItemId
    ensures store.Valid()
    ensures user.None? ==> status == StatusUnauthorized
    ensures user.Some? && productId !in store.products ==> status == StatusNotFound
    ensures user.Some? && productId in store.products && store.products[productId].stock < quantity ==>
              status == StatusBadRequest
    ensures status == StatusUnauthorized || status == StatusNotFound || status == StatusBadRequest ==>
              store.cartItems == old(store.cartItems) && store.cartItemId == old(store.cartItemId)
    ensures user.Some? && productId in store.products && quantity <= store.products[productId].stock ==>
              match old(store.GetCartItemByUserAndProduct(user.value.id, productId))
              case Some(c) =>
                status == StatusOk
                && store.cartItems == old(store.cartItems)[c.id := c.(quantity := c.quantity + quantity)]
                && store.cartItemId == old(store.cartItemId)
              case None =>
                status == StatusCreated
                && store.cartItems == old(store.cartItems)[old(store.cartItemId) :=
                                        CartItem(old(store.cartItemId), user.value.id, productId, quantity)]
                && store.cartItemId == old(store.cartItemId) + 1
  {
    if user.None? {
      return StatusUnauthorized;
    }
    var uid := user.value.id;
    var product := store.GetProduct(productId);
    if product.None? {
      return StatusNotFound;
    }
    if product.value.stock < quantity {
      return StatusBadRequest;
    }
    var existing := store.GetCartItemByUserAndProduct(uid, productId);
    if existing.Some? {
      var updated := store.UpdateCartItem(existing.value.id, existing.value.quantity + quantity);
      return StatusOk;
    }
    var created := store.CreateCartItem(InsertCartItem(uid, productId, Some(quantity)));
    return StatusCreated;
  }

  /**
   * PUT /api/cart/:id. A quantity below 1 fails validation before any lookup
   * (500 through the error middleware); then the item must exist, belong to
   * the user, and its product must have the stock.
   */
  method UpdateCartQuantity(store: MemStorage, user: Option<User>, id: int, quantity: int) returns (status: int)
    requires store.Valid()
    modifies store`cartItems
    ensures store.Valid()
    ensures user.None? ==> status == StatusUnauthorized
    ensures user.Some? && quantity < 1 ==> status == StatusServerError
    ensures user.Some? && 1 <= quantity && id !in store.cartItems ==> status == StatusNotFound
    ensures user.Some? && 1 <= quantity && id in old(store.cartItems) && old(store.cartItems)[id].userId != user.value.id ==>
              status == StatusForbidden
    ensures user.Some? && 1 <= quantity && id in old(store.cartItems) && old(store.cartItems)[id].userId == user.value.id
            && old(store.cartItems)[id].productId !in store.products ==>
              status == StatusNotFound
    ensures user.Some? && 1 <= quantity && id in old(store.cartItems) && old(store.cartItems)[id].userId == user.value.id
            && old(store.cartItems)[id].productId in store.products
            && store.products[old(store.cartItems)[id].productId].stock < quantity ==>
              status == StatusBadRequest
    ensures status == StatusOk <==>
              user.Some? && 1 <= quantity && id in old(store.cartItems)
              && old(store.cartItems)[id].userId == user.value.id
              && old(store.cartItems)[id].productId in store.products
              && quantity <= store.products[old(store.cartItems)[id].productId].stock
    ensures status == StatusOk ==> store.cartItems == old(store.cartItems)[id := old(store.cartItems)[id].(quantity := quantity)]
    ensures status != StatusOk ==> store.cartItems == old(store.cartItems)
  {
    if user.None? {
      return StatusUnauthorized;
    }
    if quantity < 1 {
      return StatusServerError;
    }
    var item := store.GetCartItem(id);
    if item.None? {
      return StatusNotFound;
    }
    if item.value.userId != user.value.id {
      return StatusForbidden;
    }
    var product := store.GetProduct(item.value.productId);
    if product.None? {
      return StatusNotFound;
    }
    if product.value.stock < quantity {
      return StatusBadRequest;
    }
    var updated := store.UpdateCartItem(id, quantity);
    return StatusOk;
  }

  /** DELETE /api/cart/:id */
  method RemoveFromCart(store: MemStorage, user: Option<User>, id: int) returns (status: int)
    requires store.Valid()
    modifies store`cartItems
    ensures store.Valid()
    ensures user.None? ==> status == StatusUnauthorized
    ensures user.Some? && id !in old(store.cartItems) ==> status == StatusNotFound
    ensures user.Some? && id in old(store.cartItems) && old(store.cartItems)[id].userId != user.value.id ==>
              status == StatusForbidden
    ensures status == StatusNoContent <==>
              user.Some? && id in old(store.cartItems) && old(store.cartItems)[id].userId == user.value.id
    ensures status == StatusNoContent ==> store.cartItems == old(store.cartItems) - {id}
    ensures status != StatusNoContent ==> store.cartItems == old(store.cartItems)
  {
    if user.None? {
      return StatusUnauthorized;
    }
    var item := store.GetCartItem(id);
    if item.None? {
      return StatusNotFound;
    }
    if item.value.userId != user.value.id {
      return StatusForbidden;
    }
    var existed := store.DeleteCartItem(id);
    return StatusNoContent;
  }

  /** DELETE /api/cart: removes every row of the user's cart and no other. */
  method EmptyCart(store: MemStorage, user: Option<User>) returns (status: int)
    requires store.Valid()
    modifies store`cartItems
    ensures store.Valid()
    ensures status == StatusUnauthorized <==> user.None?
    ensures user.None? ==> store.cartItems == old(store.cartItems)
    ensures user.Some? ==> status == StatusNoContent
    ensures user.Some? ==> forall k :: k in store.cartItems <==>
              k in old(store.cartItems) && old(store.cartItems)[k].userId != user.value.id
    ensures forall k :: k in store.cartItems ==> store.cartItems[k] == old(store.cartItems)[k]
  {
    if user.None? {
      return StatusUnauthorized;
    }
    var ok := store.ClearCart(user.value.id);
    return StatusNoContent;
  }

  /** GET /api/orders */
  method ListOrders(store: MemStorage, user: Option<User>) returns (status: int, orders: seq<Order>)
    requires store.Valid()
    ensures status == StatusUnauthorized <==> user.None?
    ensures user.Some? ==> status == StatusOk
    ensures user.None? ==> orders == []
    ensures user.Some? ==> forall o :: o in orders ==> o.userId == user.value.id && o.id in store.orders && store.orders[o.id] == o
    ensures user.Some? ==> forall k :: k in store.orders && store.orders[k].userId == user.value.id ==> store.orders[k] in orders
    ensures forall i, j :: 0 <= i < j < |orders| ==> orders[i].id < orders[j].id
  {
    if user.None? {
      return StatusUnauthorized, [];
    }
    return StatusOk, store.GetOrders(user.value.id);
  }

  /** The order item checkout records for one cart line: the product's price at that moment. */
  function Snapshot(line: CartLine, orderId: int, id: int): (o: OrderItem)
    ensures o.id == id && o.orderId == orderId
    ensures o.productId == line.item.productId && o.price == line.product.price && o.quantity == line.item.quantity
  {
    OrderItem(id, orderId, line.item.productId, line.product.price, line.item.quantity)
  }

  /** `after` is `before` plus, at consecutive ids from `firstId`, one snapshot per line. */
  ghost predicate ItemsRecorded(before: map<int, OrderItem>, after: map<int, OrderItem>, firstId: int, orderId: int, lines: seq<CartLine>) {
    RecordedUpTo(before, after, firstId, orderId, lines, |lines|)
  }

  /** Line `j` of the cart is stored, as its snapshot, under id `firstId + j`. */
  ghost predicate Recorded(after: map<int, OrderItem>, firstId: int, orderId: int, lines: seq<CartLine>, j: int) {
    0 <= j < |lines| && firstId + j in after && after[firstId + j] == Snapshot(lines[j], orderId, firstId + j)
  }

  /** The first `n` lines are recorded next to the untouched `before` rows, and nothing else was added. */
  ghost predicate RecordedUpTo(before: map<int, OrderItem>, after: map<int, OrderItem>, firstId: int, orderId: int,
                               lines: seq<CartLine>, n: int) {
    (forall k :: k in after ==> k in before || firstId <= k < firstId + n)
    && (forall k :: k in before ==> k in after && after[k] == before[k])
    && (forall j :: 0 <= j < n ==> Recorded(after, firstId, orderId, lines, j))
  }

  /** The checkout loop that totals the cart: price times quantity, line by line. */
  method OrderTotal(lines: seq<CartLine>) returns (total: int)
    ensures total == UseCart.Subtotal(lines)
  {
    total := 0;
    var i := 0;
    while i < |lines|
      invariant 0 <= i <= |lines|
      invariant total == UseCart.Subtotal(lines[..i])
    {
      assert lines[..i + 1][..i] == lines[..i];
      total := total + lines[i].product.price * lines[i].item.quantity;
      i := i + 1;
    }
    assert lines[..|lines|] == lines;
  }

  /** Recording the next line's snapshot under the next fresh id extends the record by that line. */
  lemma ItemsRecordedStep(before: map<int, OrderItem>, mid: map<int, OrderItem>, firstId: int, orderId: int,
                          lines: seq<CartLine>, i: int, created: OrderItem)
    requires 0 <= i < |lines|
    requires RecordedUpTo(before, mid, firstId, orderId, lines, i)
    requires firstId + i !in mid
    requires created == Snapshot(lines[i], orderId, firstId + i)
    ensures RecordedUpTo(before, mid[firstId + i := created], firstId, orderId, lines, i + 1)
  {
    var after := mid[firstId + i := created];
    forall k | k in after ensures k in before || firstId <= k < firstId + i + 1 {
      if k != firstId + i {
        assert k in mid;
      }
    }
    forall k | k in before ensures k in after && after[k] == before[k] {
      assert k in mid && k != firstId + i;
    }
    forall j | 0 <= j < i + 1 ensures Recorded(after, firstId, orderId, lines, j) {
      if j < i {
        assert Recorded(mid, firstId, orderId, lines, j);
        assert firstId + j != firstId + i;
      }
    }
  }

  /** The checkout loop that stores one order item per cart line, in cart order. */
  method RecordItems(store: MemStorage, orderId: int, lines: seq<CartLine>)
    requires store.Valid()
    modifies store`orderItems, store`orderItemId
    ensures store.Valid()
    ensures ItemsRecorded(old(store.orderItems), store.orderItems, old(store.orderItemId), orderId, lines)
    ensures store.orderItemId == old(store.orderItemId) + |lines|
  {
    var i := 0;
    while i < |lines|
      invariant 0 <= i <= |lines|
      invariant store.Valid()
      invariant store.orderItemId == old(store.orderItemId) + i
      invariant RecordedUpTo(old(store.orderItems), store.orderItems, old(store.orderItemId), orderId, lines, i)
    {
      var line := lines[i];
      ghost var mid := store.orderItems;
      var created := store.CreateOrderItem(InsertOrderItem(orderId, line.item.productId, line.product.price, line.item.quantity));
      ItemsRecordedStep(old(store.orderItems), mid, old(store.orderItemId), orderId, lines, i, created);
      i := i + 1;
    }
  }

  /** The successful path of checkout, for a cart that joined with its products. */
  method Checkout(store: MemStorage, uid: int, lines: seq<CartLine>, today: int) returns (o: Order)
    requires store.Valid()
    modifies store`orders, store`orderId, store`analyticsData, store`analyticsId,
             store`orderItems, store`orderItemId, store`cartItems
    ensures store.Valid()
    ensures o == Order(old(store.orderId), uid, UseCart.Subtotal(lines), DefaultOrderStatus, today)
    ensures store.orders == old(store.orders)[o.id := o] && store.orderId == old(store.orderId) + 1
    ensures ItemsRecorded(old(store.orderItems), store.orderItems, old(store.orderItemId), o.id, lines)
    ensures store.orderItemId == old(store.orderItemId) + |lines|
    ensures forall k :: k in store.cartItems <==> k in old(store.cartItems) && old(store.cartItems)[k].userId != uid
    ensures forall k :: k in store.cartItems ==> store.cartItems[k] == old(store.cartItems)[k]
    ensures old(store.TodayBucket(today)).Some? ==>
              var b := old(store.TodayBucket(today)).value;
              store.analyticsData == old(store.analyticsData)[b.id := RecordSale(b, o.total)]
              && store.analyticsId == old(store.analyticsId)
    ensures old(store.TodayBucket(today)).None? ==>
              store.analyticsData == old(store.analyticsData)[old(store.analyticsId) :=
                                       Analytics(old(store.analyticsId), today, o.total, 1, 1)]
              && store.analyticsId == old(store.analyticsId) + 1
  {
    var total := OrderTotal(lines);
    o := store.CreateOrder(InsertOrder(uid, total, Some(DefaultOrderStatus)), today);
    RecordItems(store, o.id, lines);
    var cleared := store.ClearCart(uid);
  }

  /**
   * POST /api/orders: totals the cart at current prices, stores the order
   * (and its sale in today's analytics), one order item per cart line, and
   * empties the cart. Product stock is not touched.
   */
  method PlaceOrder(store: MemStorage, user: Option<User>, today: int) returns (status: int, order: Option<Order>)
    requires store.Valid()
    modifies store`orders, store`orderId, store`analyticsData, store`analyticsId,
             store`orderItems, store`orderItemId, store`cartItems
    ensures store.Valid()
    ensures user.None? ==> status == StatusUnauthorized
    ensures user.Some? ==> (status == StatusServerError <==> old(store.GetCartItems(user.value.id)).Err?)
    ensures user.Some? ==> (status == StatusBadRequest <==> old(store.GetCartItems(user.value.id)) == Ok([]))
    ensures status != StatusCreated ==>
              order.None? && store.orders == old(store.orders) && store.orderId == old(store.orderId)
              && store.orderItems == old(store.orderItems) && store.orderItemId == old(store.orderItemId)
              && store.analyticsData == old(store.analyticsData) && store.analyticsId == old(store.analyticsId)
              && store.cartItems == old(store.cartItems)
    ensures status == StatusCreated <==>
              user.Some? && old(store.GetCartItems(user.value.id)).Ok? && old(store.GetCartItems(user.value.id)).value != []
    ensures status == StatusCreated ==>
              var lines := old(store.GetCartItems(user.value.id)).value;
              order == Some(Order(old(store.orderId), user.value.id, UseCart.Subtotal(lines), DefaultOrderStatus, today))
              && store.orders == old(store.orders)[order.value.id := order.value]
              && store.orderId == old(store.orderId) + 1
              && ItemsRecorded(old(store.orderItems), store.orderItems, old(store.orderItemId), order.value.id, lines)
              && store.orderItemId == old(store.orderItemId) + |lines|
    ensures status == StatusCreated ==>
              (forall k :: k in store.cartItems <==> k in old(store.cartItems) && old(store.cartItems)[k].userId != user.value.id)
              && (forall k :: k in store.cartItems ==> store.cartItems[k] == old(store.cartItems)[k])
    ensures status == StatusCreated && old(store.TodayBucket(today)).Some? ==>
              var b := old(store.TodayBucket(today)).value;
              store.analyticsData == old(store.analyticsData)[b.id := RecordSale(b, order.value.total)]
              && store.analyticsId == old(store.analyticsId)
    ensures status == StatusCreated && old(store.TodayBucket(today)).None? ==>
              store.analyticsData == old(store.analyticsData)[old(store.analyticsId) :=
                                       Analytics(old(store.analyticsId), today, order.value.total, 1, 1)]
              && store.analyticsId == old(store.analyticsId) + 1
  {
    if user.None? {
      return StatusUnauthorized, None;
    }
    var uid := user.value.id;
    var cart := store.GetCartItems(uid);
    if cart.Err? {
      return StatusServerError, None;
    }
    var lines := cart.value;
    if |lines| == 0 {
      return StatusBadRequest, None;
    }

    var o := Checkout(store, uid, lines, today);
    return StatusCreated, Some(o);
  }

  /**
   * GET /api/orders/:id: the owner or an admin sees the order with its
   * items joined to their products.
   */
  method ShowOrder(store: MemStorage, user: Option<User>, id: int) returns (status: int, order: Option<Order>, items: seq<OrderLine>)
    requires store.Valid()
    ensures user.None? <==> status == StatusUnauthorized
    ensures user.Some? ==> (status == StatusNotFound <==> id !in store.orders)
    ensures status == StatusForbidden <==>
              user.Some? && id in store.orders && store.orders[id].userId != user.value.id && !IsAdmin(user.value)
    ensures user.Some? && id in store.orders && (store.orders[id].userId == user.value.id || IsAdmin(user.value)) ==>
              match store.GetOrderItems(id)
              case Ok(lines) => status == StatusOk && order == Some(store.orders[id]) && items == lines
              case Err(_) => status == StatusServerError
    ensures status != StatusOk ==> order.None? && items == []
  {
    if user.None? {
      return StatusUnauthorized, None, [];
    }
    var o := store.GetOrder(id);
    if o.None? {
      return StatusNotFound, None, [];
    }
    if o.value.userId != user.value.id && !IsAdmin(user.value) {
      return StatusForbidden, None, [];
    }
    var lines := store.GetOrderItems(id);
    if lines.Err? {
      return StatusServerError, None, [];
    }
    return StatusOk, o, lines.value;
  }

  /** GET /api/analytics: admins only; an anonymous request is also refused with 403. */
  method ShowAnalytics(store: MemStorage, user: Option<User>, days: Option<int>)
    returns (status: int, daily: seq<Analytics>, bestSellers: seq<Product>)
    requires store.Valid()
    ensures status == StatusForbidden <==> user.None? || !IsAdmin(user.value)
    ensures status == StatusForbidden || status == StatusOk
    ensures status == StatusOk ==>
              daily == store.GetDailyAnalytics(AnalyticsDays(days))
              && bestSellers == store.GetBestSellingProducts(BestSellerCount)
    ensures status == StatusForbidden ==> daily == [] && bestSellers == []
  {
    if user.None? || !IsAdmin(user.value) {
      return StatusForbidden, [], [];
    }
    return StatusOk, store.GetDailyAnalytics(AnalyticsDays(days)), store.GetBestSellingProducts(BestSellerCount);
  }
}
