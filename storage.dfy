/**
 * The in-memory store: seven tables held as maps from id to row, and seven
 * id counters that start at 1. A table's `Array.from(map.values())` lists
 * its rows in insertion order, which is ascending id order because ids are
 * handed out by an increasing counter and overwriting a key keeps its place;
 * `Rows` is that listing.
 */
module Storage {
  import opened Wrappers
  import opened Schema
  import Seqs
  import Text

  /** The rows stored under keys 1 .. next - 1, in ascending key order. */
  function Rows<T>(m: map<int, T>, next: int): seq<T>
    decreases next
  {
    if next <= 1 then [] else Rows(m, next - 1) + (if next - 1 in m then [m[next - 1]] else [])
  }

  /** Every key lies in [1, next) and is the id of the row stored under it. */
  ghost predicate Keyed<T>(m: map<int, T>, next: int, id: T -> int) {
    1 <= next && forall k :: k in m ==> 1 <= k < next && id(m[k]) == k
  }

  function UserKey(u: User): int { u.id }
  function ProductKey(p: Product): int { p.id }
  function CategoryKey(c: Category): int { c.id }
  function CartItemKey(c: CartItem): int { c.id }
  function OrderKey(o: Order): int { o.id }
  function OrderItemKey(o: OrderItem): int { o.id }
  function AnalyticsKey(a: Analytics): int { a.id }

  lemma {:induction false} RowsMembers<T>(m: map<int, T>, next: int, id: T -> int)
    requires forall k :: k in m ==> id(m[k]) == k
    ensures forall x :: x in Rows(m, next) ==> id(x) in m && m[id(x)] == x
    ensures forall k :: k in m && 1 <= k < next ==> m[k] in Rows(m, next)
    decreases next
  {
    if next > 1 {
      RowsMembers(m, next - 1, id);
    }
  }

  lemma {:induction false} RowsAscending<T>(m: map<int, T>, next: int, id: T -> int)
    requires forall k :: k in m ==> id(m[k]) == k
    ensures forall i :: 0 <= i < |Rows(m, next)| ==> 1 <= id(Rows(m, next)[i]) < next
    ensures forall i, j :: 0 <= i < j < |Rows(m, next)| ==> id(Rows(m, next)[i]) < id(Rows(m, next)[j])
    decreases next
  {
    if next > 1 {
      RowsAscending(m, next - 1, id);
    }
  }

  lemma {:induction false} RowsCount<T>(m: map<int, T>, next: int)
    ensures |Rows(m, next)| == |set k | k in m && 1 <= k < next|
    decreases next
  {
    if next > 1 {
      RowsCount(m, next - 1);
      var below := set k | k in m && 1 <= k < next - 1;
      var upTo := set k | k in m && 1 <= k < next;
      if next - 1 in m {
        assert upTo == below + {next - 1};
      } else {
        assert upTo == below;
      }
    }
  }

  /** Under `Keyed`, the listing holds every stored row once, by ascending id. */
  lemma RowsOfTable<T>(m: map<int, T>, next: int, id: T -> int)
    requires Keyed(m, next, id)
    ensures |Rows(m, next)| == |m|
    ensures forall x :: x in Rows(m, next) ==> id(x) in m && m[id(x)] == x
    ensures forall k :: k in m ==> m[k] in Rows(m, next)
    ensures forall i, j :: 0 <= i < j < |Rows(m, next)| ==> id(Rows(m, next)[i]) < id(Rows(m, next)[j])
  {
    RowsMembers(m, next, id);
    RowsAscending(m, next, id);
    RowsCount(m, next);
    assert (set k | k in m && 1 <= k < next) == m.Keys;
  }

  /**
   * `Array.from(m.values()).filter(p)`: every stored row satisfying `p`,
   * each once, by ascending id.
   */
  function Select<T>(m: map<int, T>, next: int, id: T -> int, p: T -> bool): (r: seq<T>)
    requires Keyed(m, next, id)
    ensures forall x :: x in r ==> p(x) && id(x) in m && m[id(x)] == x
    ensures forall k :: k in m && p(m[k]) ==> m[k] in r
    ensures forall i, j :: 0 <= i < j < |r| ==> id(r[i]) < id(r[j])
  {
    var rows := Rows(m, next);
    RowsOfTable(m, next, id);
    Seqs.FilterKeepsIncreasing(rows, p, id);
    var r := Seqs.Filter(rows, p);
    assert forall x :: x in r ==> x in rows by {
      forall x | x in r ensures x in rows {
        assert x in multiset(r);
      }
    }
    r
  }

  /** `Array.from(m.values()).find(p)`: the matching row with the smallest id. */
  function First<T>(m: map<int, T>, next: int, id: T -> int, p: T -> bool): (r: Option<T>)
    requires Keyed(m, next, id)
    ensures r.Some? ==> p(r.value) && id(r.value) in m && m[id(r.value)] == r.value
    ensures r.Some? ==> forall k :: k in m && p(m[k]) ==> id(r.value) <= k
    ensures r.None? <==> forall k :: k in m ==> !p(m[k])
  {
    RowsOfTable(m, next, id);
    var rows := Rows(m, next);
    match Seqs.FindIndex(rows, p)
    case None => None
    case Some(i) =>
      assert forall k :: k in m && p(m[k]) ==> id(rows[i]) <= k by {
        forall k | k in m && p(m[k]) ensures id(rows[i]) <= k {
          var j :| 0 <= j < |rows| && rows[j] == m[k];
          assert !(j < i);
        }
      }
      Some(rows[i])
  }

  /**
   * Joins each row with the product it references, in order; `Err(id)` is the
   * exception thrown for the first row whose product `id` is missing.
   */
  function JoinProducts<T>(rows: seq<T>, productOf: T -> int, products: map<int, Product>)
    : (r: Result<seq<Joined<T>>, int>)
    ensures r.Ok? <==> forall i :: 0 <= i < |rows| ==> productOf(rows[i]) in products
    ensures r.Ok? ==> |r.value| == |rows|
    ensures r.Ok? ==> forall i :: 0 <= i < |rows| ==>
              r.value[i] == Joined(rows[i], products[productOf(rows[i])])
    ensures r.Err? ==> r.error !in products
    ensures r.Err? ==> exists i :: 0 <= i < |rows| && productOf(rows[i]) == r.error
  {
    if rows == [] then Ok([])
    else if productOf(rows[0]) !in products then Err(productOf(rows[0]))
    else
      match JoinProducts(rows[1..], productOf, products)
      case Err(e) =>
        assert exists i :: 1 <= i < |rows| && productOf(rows[i]) == e by {
          var i :| 0 <= i < |rows[1..]| && productOf(rows[1..][i]) == e;
          assert productOf(rows[i + 1]) == e;
        }
        Err(e)
      case Ok(rest) =>
        assert forall i :: 1 <= i < |rows| ==> productOf(rows[i]) == productOf(rows[1..][i - 1]);
        Ok([Joined(rows[0], products[productOf(rows[0])])] + rest)
  }

  function CartProductOf(c: CartItem): int { c.productId }
  function OrderProductOf(o: OrderItem): int { o.productId }

  /** `{ ...existing, ...patch }`: the fields the patch carries override; the id is never among them. */
  function Overlay(p: Product, patch: ProductPatch): (r: Product)
    ensures r.id == p.id
  {
    Product(p.id, patch.name.GetOr(p.name), patch.slug.GetOr(p.slug),
            patch.description.GetOr(p.description), patch.price.GetOr(p.price),
            patch.comparePrice.GetOr(p.comparePrice), patch.categoryId.GetOr(p.categoryId),
            patch.imageUrl.GetOr(p.imageUrl), patch.rating.GetOr(p.rating),
            patch.reviewCount.GetOr(p.reviewCount), patch.stock.GetOr(p.stock),
            patch.tags.GetOr(p.tags), patch.featuredTag.GetOr(p.featuredTag),
            patch.isNew.GetOr(p.isNew), patch.isFeatured.GetOr(p.isFeatured),
            patch.isBestSeller.GetOr(p.isBestSeller))
  }

  const EmptyPatch := ProductPatch(None, None, None, None, None, None, None, None, None, None,
                                   None, None, None, None, None)

  /** A patch that carries no field leaves the product as it was. */
  lemma OverlayEmpty(p: Product)
    ensures Overlay(p, EmptyPatch) == p
  {
  }

  /** Applying the same patch twice is applying it once; a carried price or stock is what results. */
  lemma OverlayIdempotent(p: Product, patch: ProductPatch)
    ensures Overlay(Overlay(p, patch), patch) == Overlay(p, patch)
    ensures patch.price.Some? ==> Overlay(p, patch).price == patch.price.value
    ensures patch.stock.Some? ==> Overlay(p, patch).stock == patch.stock.value
    ensures patch.stock.None? ==> Overlay(p, patch).stock == p.stock
  {
  }

  /** Today's bucket after one more order of `total`. */
  function RecordSale(b: Analytics, total: int): (r: Analytics)
    ensures r.id == b.id && r.date == b.date
    ensures r.sales - b.sales == total && r.orders - b.orders == 1 && r.customers - b.customers == 1
  {
    b.(sales := b.sales + total, orders := b.orders + 1, customers := b.customers + 1)
  }

  function NegatedDate(a: Analytics): int { -a.date }
  function NegatedReviewCount(p: Product): int { -p.reviewCount }

  class MemStorage {
    var users: map<int, User>
    var products: map<int, Product>
    var categories: map<int, Category>
    var cartItems: map<int, CartItem>
    var orders: map<int, Order>
    var orderItems: map<int, OrderItem>
    var analyticsData: map<int, Analytics>

    var userId: int
    var productId: int
    var categoryId: int
    var cartItemId: int
    var orderId: int
    var orderItemId: int
    var analyticsId: int

    /** Each table is keyed by the ids of its rows, all below that table's counter. */
    ghost predicate Valid()
      reads this
    {
      && Keyed(users, userId, UserKey)
      && Keyed(products, productId, ProductKey)
      && Keyed(categories, categoryId, CategoryKey)
      && Keyed(cartItems, cartItemId, CartItemKey)
      && Keyed(orders, orderId, OrderKey)
      && Keyed(orderItems, orderItemId, OrderItemKey)
      && Keyed(analyticsData, analyticsId, AnalyticsKey)
    }

    /** An empty store whose counters all start at 1 (leaving out the seed data). */
    constructor ()
      ensures Valid()
      ensures users == map[] && products == map[] && categories == map[] && cartItems == map[]
      ensures orders == map[] && orderItems == map[] && analyticsData == map[]
      ensures userId == 1 && productId == 1 && categoryId == 1 && cartItemId == 1
      ensures orderId == 1 && orderItemId == 1 && analyticsId == 1
    {
      users, products, categories, cartItems := map[], map[], map[], map[];
      orders, orderItems, analyticsData := map[], map[], map[];
      userId, productId, categoryId, cartItemId := 1, 1, 1, 1;
      orderId, orderItemId, analyticsId := 1, 1, 1;
    }

    // ---- users

    function GetUser(id: int): (r: Option<User>)
      reads this
      ensures r.Some? <==> id in users
      ensures r.Some? ==> r.value == users[id]
    {
      if id in users then Some(users[id]) else None
    }

    /** The first user, by id, whose username equals `username` ignoring case. */
    function GetUserByUsername(username: string): (r: Option<User>)
      reads this
      requires Valid()
      ensures r.Some? ==> r.value.id in users && users[r.value.id] == r.value
      ensures r.Some? ==> Text.EqualsIgnoreCase(r.value.username, username)
      ensures r.Some? ==> forall k :: k in users && Text.EqualsIgnoreCase(users[k].username, username) ==> r.value.id <= k
      ensures r.None? <==> forall k :: k in users ==> !Text.EqualsIgnoreCase(users[k].username, username)
    {
      First(users, userId, UserKey, (u: User) => Text.Lower(u.username) == Text.Lower(username))
    }

    method CreateUser(ins: InsertUser) returns (u: User)
      requires Valid()
      modifies this`users, this`userId
      ensures Valid()
      ensures u == UserRow(ins, old(userId)) && u.id !in old(users)
      ensures users == old(users)[u.id := u] && userId == old(userId) + 1
    {
      var id := userId;
      userId := userId + 1;
      u := UserRow(ins, id);
      users := users[id := u];
    }

    // ---- products

    /** Every product, once each, by ascending id. */
    function GetProducts(): (r: seq<Product>)
      reads this
      requires Valid()
      ensures |r| == |products|
      ensures forall p :: p in r ==> p.id in products && products[p.id] == p
      ensures forall k :: k in products ==> products[k] in r
      ensures forall i, j :: 0 <= i < j < |r| ==> r[i].id < r[j].id
    {
      RowsOfTable(products, productId, ProductKey);
      Rows(products, productId)
    }

    function GetProduct(id: int): (r: Option<Product>)
      reads this
      ensures r.Some? <==> id in products
      ensures r.Some? ==> r.value == products[id]
    {
      if id in products then Some(products[id]) else None
    }

    function GetProductBySlug(slug: string): (r: Option<Product>)
      reads this
      requires Valid()
      ensures r.Some? ==> r.value.id in products && products[r.value.id] == r.value && r.value.slug == slug
      ensures r.Some? ==> forall k :: k in products && products[k].slug == slug ==> r.value.id <= k
      ensures r.None? <==> forall k :: k in products ==> products[k].slug != slug
    {
      First(products, productId, ProductKey, (p: Product) => p.slug == slug)
    }

    function GetProductsByCategory(categoryId: int): (r: seq<Product>)
      reads this
      requires Valid()
      ensures forall p :: p in r ==> p.id in products && products[p.id] == p && p.categoryId == categoryId
      ensures forall k :: k in products && products[k].categoryId == categoryId ==> products[k] in r
      ensures forall i, j :: 0 <= i < j < |r| ==> r[i].id < r[j].id
    {
      Select(products, productId, ProductKey, (p: Product) => p.categoryId == categoryId)
    }

    function GetFeaturedProducts(): (r: seq<Product>)
      reads this
      requires Valid()
      ensures forall p :: p in r ==> p.id in products && products[p.id] == p && p.isFeatured
      ensures forall k :: k in products && products[k].isFeatured ==> products[k] in r
      ensures forall i, j :: 0 <= i < j < |r| ==> r[i].id < r[j].id
    {
      Select(products, productId, ProductKey, (p: Product) => p.isFeatured)
    }

    function GetNewProducts(): (r: seq<Product>)
      reads this
      requires Valid()
      ensures forall p :: p in r ==> p.id in products && products[p.id] == p && p.isNew
      ensures forall k :: k in products && products[k].isNew ==> products[k] in r
      ensures forall i, j :: 0 <= i < j < |r| ==> r[i].id < r[j].id
    {
      Select(products, productId, ProductKey, (p: Product) => p.isNew)
    }

    /** The products whose name, or non-empty description, contains `query` ignoring case. */
    function SearchProducts(query: string): (r: seq<Product>)
      reads this
      requires Valid()
      ensures forall p :: p in r ==> p.id in products && products[p.id] == p && MatchesSearch(p, query)
      ensures forall k :: k in products && MatchesSearch(products[k], query) ==> products[k] in r
      ensures forall i, j :: 0 <= i < j < |r| ==> r[i].id < r[j].id
    {
      Select(products, productId, ProductKey, (p: Product) => MatchesSearch(p, query))
    }

    method CreateProduct(ins: InsertProduct) returns (p: Product)
      requires Valid()
      modifies this`products, this`productId
      ensures Valid()
      ensures p == ProductRow(ins, old(productId)) && p.id !in old(products)
      ensures products == old(products)[p.id := p] && productId == old(productId) + 1
    {
      var id := productId;
      productId := productId + 1;
      p := ProductRow(ins, id);
      products := products[id := p];
    }

    /** Overlays the patch on product `id`; a missing id changes nothing. */
    method UpdateProduct(id: int, patch: ProductPatch) returns (r: Option<Product>)
      requires Valid()
      modifies this`products
      ensures Valid()
      ensures id !in old(products) ==> r.None? && products == old(products)
      ensures id in old(products) ==>
                r == Some(Overlay(old(products)[id], patch)) && products == old(products)[id := r.value]
    {
      if id !in products {
        return None;
      }
      var updated := Overlay(products[id], patch);
      products := products[id := updated];
      r := Some(updated);
    }

    // ---- categories

    function GetCategories(): (r: seq<Category>)
      reads this
      requires Valid()
      ensures |r| == |categories|
      ensures forall c :: c in r ==> c.id in categories && categories[c.id] == c
      ensures forall k :: k in categories ==> categories[k] in r
      ensures forall i, j :: 0 <= i < j < |r| ==> r[i].id < r[j].id
    {
      RowsOfTable(categories, categoryId, CategoryKey);
      Rows(categories, categoryId)
    }

    function GetCategory(id: int): (r: Option<Category>)
      reads this
      ensures r.Some? <==> id in categories
      ensures r.Some? ==> r.value == categories[id]
    {
      if id in categories then Some(categories[id]) else None
    }

    function GetCategoryBySlug(slug: string): (r: Option<Category>)
      reads this
      requires Valid()
      ensures r.Some? ==> r.value.id in categories && categories[r.value.id] == r.value && r.value.slug == slug
      ensures r.Some? ==> forall k :: k in categories && categories[k].slug == slug ==> r.value.id <= k
      ensures r.None? <==> forall k :: k in categories ==> categories[k].slug != slug
    {
      First(categories, categoryId, CategoryKey, (c: Category) => c.slug == slug)
    }

    method CreateCategory(ins: InsertCategory) returns (c: Category)
      requires Valid()
      modifies this`categories, this`categoryId
      ensures Valid()
      ensures c == CategoryRow(ins, old(categoryId)) && c.id !in old(categories)
      ensures categories == old(categories)[c.id := c] && categoryId == old(categoryId) + 1
    {
      var id := categoryId;
      categoryId := categoryId + 1;
      c := CategoryRow(ins, id);
      categories := categories[id := c];
    }

    // ---- cart

    /** The cart rows of one user, before the join with products. */
    function CartOf(userId: int): (r: seq<CartItem>)
      reads this
      requires Valid()
      ensures forall c :: c in r ==> c.userId == userId && c.id in cartItems && cartItems[c.id] == c
      ensures forall k :: k in cartItems && cartItems[k].userId == userId ==> cartItems[k] in r
      ensures forall i, j :: 0 <= i < j < |r| ==> r[i].id < r[j].id
    {
      Select(cartItems, cartItemId, CartItemKey, (c: CartItem) => c.userId == userId)
    }

    /** The user's cart rows, each joined with its product; fails on a missing product. */
    function GetCartItems(userId: int): (r: Result<seq<CartLine>, int>)
      reads this
      requires Valid()
      ensures r.Ok? <==> forall c :: c in CartOf(userId) ==> c.productId in products
      ensures r.Ok? ==> |r.value| == |CartOf(userId)|
      ensures r.Ok? ==> forall i :: 0 <= i < |r.value| ==>
                r.value[i].item == CartOf(userId)[i] && r.value[i].product == products[r.value[i].item.productId]
      ensures r.Ok? ==> forall i, j :: 0 <= i < j < |r.value| ==> r.value[i].item.id < r.value[j].item.id
      ensures r.Err? ==> r.error !in products
      ensures r.Err? ==> exists k :: k in cartItems && cartItems[k].userId == userId && cartItems[k].productId == r.error
    {
      var rows := CartOf(userId);
      var r := JoinProducts(rows, CartProductOf, products);
      assert r.Err? ==> exists k :: k in cartItems && cartItems[k].userId == userId && cartItems[k].productId == r.error by {
        if r.Err? {
          var i :| 0 <= i < |rows| && CartProductOf(rows[i]) == r.error;
          assert rows[i] in rows;
        }
      }
      r
    }

    function GetCartItem(id: int): (r: Option<CartItem>)
      reads this
      ensures r.Some? <==> id in cartItems
      ensures r.Some? ==> r.value == cartItems[id]
    {
      if id in cartItems then Some(cartItems[id]) else None
    }

    /** The first cart row, by id, of this user for this product. */
    function GetCartItemByUserAndProduct(userId: int, productId: int): (r: Option<CartItem>)
      reads this
      requires Valid()
      ensures r.Some? ==> r.value.id in cartItems && cartItems[r.value.id] == r.value
      ensures r.Some? ==> r.value.userId == userId && r.value.productId == productId
      ensures r.Some? ==> forall k :: k in cartItems && cartItems[k].userId == userId && cartItems[k].productId == productId ==> r.value.id <= k
      ensures r.None? <==> forall k :: k in cartItems ==> !(cartItems[k].userId == userId && cartItems[k].productId == productId)
    {
      First(cartItems, cartItemId, CartItemKey, (c: CartItem) => c.userId == userId && c.productId == productId)
    }

    method CreateCartItem(ins: InsertCartItem) returns (c: CartItem)
      requires Valid()
      modifies this`cartItems, this`cartItemId
      ensures Valid()
      ensures c == CartItemRow(ins, old(cartItemId)) && c.id !in old(cartItems)
      ensures cartItems == old(cartItems)[c.id := c] && cartItemId == old(cartItemId) + 1
    {
      var id := cartItemId;
      cartItemId := cartItemId + 1;
      c := CartItemRow(ins, id);
      cartItems := cartItems[id := c];
    }

    /** Sets only the quantity of row `id`; a missing id changes nothing. */
    method UpdateCartItem(id: int, quantity: int) returns (r: Option<CartItem>)
      requires Valid()
      modifies this`cartItems
      ensures Valid()
      ensures id !in old(cartItems) ==> r.None? && cartItems == old(cartItems)
      ensures id in old(cartItems) ==>
                r == Some(old(cartItems)[id].(quantity := quantity)) && cartItems == old(cartItems)[id := r.value]
    {
      if id !in cartItems {
        return None;
      }
      var updated := cartItems[id].(quantity := quantity);
      cartItems := cartItems[id := updated];
      r := Some(updated);
    }

    /** `Map.delete`: true exactly when the row was there; only that row goes. */
    method DeleteCartItem(id: int) returns (existed: bool)
      requires Valid()
      modifies this`cartItems
      ensures Valid()
      ensures existed == (id in old(cartItems))
      ensures cartItems == old(cartItems) - {id}
    {
      existed := id in cartItems;
      cartItems := cartItems - {id};
    }

    /** Deletes every cart row of `userId`, one by one; other rows stay as they were. */
    method ClearCart(userId: int) returns (ok: bool)
      requires Valid()
      modifies this`cartItems
      ensures Valid()
      ensures ok
      ensures forall k :: k in cartItems <==> k in old(cartItems) && old(cartItems)[k].userId != userId
      ensures forall k :: k in cartItems ==> cartItems[k] == old(cartItems)[k]
    {
      var items := CartOf(userId);
      ghost var removed: set<int> := {};
      var i := 0;
      while i < |items|
        invariant 0 <= i <= |items|
        invariant removed == set j | 0 <= j < i :: items[j].id
        invariant forall k :: k in cartItems <==> k in old(cartItems) && k !in removed
        invariant forall k :: k in cartItems ==> cartItems[k] == old(cartItems)[k]
      {
        cartItems := cartItems - {items[i].id};
        removed := removed + {items[i].id};
        i := i + 1;
      }
      forall k | k in old(cartItems) && old(cartItems)[k].userId == userId
        ensures k in removed
      {
        var j :| 0 <= j < |items| && items[j] == old(cartItems)[k];
      }
      ok := true;
    }

    // ---- orders

    function GetOrders(userId: int): (r: seq<Order>)
      reads this
      requires Valid()
      ensures forall o :: o in r ==> o.userId == userId && o.id in orders && orders[o.id] == o
      ensures forall k :: k in orders && orders[k].userId == userId ==> orders[k] in r
      ensures forall i, j :: 0 <= i < j < |r| ==> r[i].id < r[j].id
    {
      Select(orders, orderId, OrderKey, (o: Order) => o.userId == userId)
    }

    function GetOrder(id: int): (r: Option<Order>)
      reads this
      ensures r.Some? <==> id in orders
      ensures r.Some? ==> r.value == orders[id]
    {
      if id in orders then Some(orders[id]) else None
    }

    /** The first analytics bucket, by id, dated `today`. */
    function TodayBucket(today: int): (r: Option<Analytics>)
      reads this
      requires Valid()
      ensures r.Some? ==> r.value.id in analyticsData && analyticsData[r.value.id] == r.value && r.value.date == today
      ensures r.Some? ==> forall k :: k in analyticsData && analyticsData[k].date == today ==> r.value.id <= k
      ensures r.None? <==> forall k :: k in analyticsData ==> analyticsData[k].date != today
    {
      First(analyticsData, analyticsId, AnalyticsKey, (a: Analytics) => a.date == today)
    }

    /**
     * Stores the order under a fresh id, then adds it to today's analytics
     * bucket, creating the bucket when there is none.
     */
    method CreateOrder(ins: InsertOrder, today: int) returns (o: Order)
      requires Valid()
      modifies this`orders, this`orderId, this`analyticsData, this`analyticsId
      ensures Valid()
      ensures o == OrderRow(ins, old(orderId), today) && o.id !in old(orders)
      ensures orders == old(orders)[o.id := o] && orderId == old(orderId) + 1
      ensures old(TodayBucket(today)).Some? ==>
                var b := old(TodayBucket(today)).value;
                analyticsData == old(analyticsData)[b.id := RecordSale(b, ins.total)]
                && analyticsId == old(analyticsId)
      ensures old(TodayBucket(today)).None? ==>
                analyticsData == old(analyticsData)[old(analyticsId) := Analytics(old(analyticsId), today, ins.total, 1, 1)]
                && analyticsId == old(analyticsId) + 1
    {
      var id := orderId;
      orderId := orderId + 1;
      o := OrderRow(ins, id, today);
      orders := orders[id := o];

      var bucket := TodayBucket(today);
      if bucket.Some? {
        var b := bucket.value;
        analyticsData := analyticsData[b.id := RecordSale(b, ins.total)];
      } else {
        var aid := analyticsId;
        analyticsId := analyticsId + 1;
        analyticsData := analyticsData[aid := Analytics(aid, today, ins.total, 1, 1)];
      }
    }

    /** The order item rows of one order, before the join with products. */
    function ItemsOf(orderId: int): (r: seq<OrderItem>)
      reads this
      requires Valid()
      ensures forall o :: o in r ==> o.orderId == orderId && o.id in orderItems && orderItems[o.id] == o
      ensures forall k :: k in orderItems && orderItems[k].orderId == orderId ==> orderItems[k] in r
      ensures forall i, j :: 0 <= i < j < |r| ==> r[i].id < r[j].id
    {
      Select(orderItems, orderItemId, OrderItemKey, (o: OrderItem) => o.orderId == orderId)
    }

    /** The order's item rows, each joined with its product; fails on a missing product. */
    function GetOrderItems(orderId: int): (r: Result<seq<OrderLine>, int>)
      reads this
      requires Valid()
      ensures r.Ok? <==> forall o :: o in ItemsOf(orderId) ==> o.productId in products
      ensures r.Ok? ==> |r.value| == |ItemsOf(orderId)|
      ensures r.Ok? ==> forall i :: 0 <= i < |r.value| ==>
                r.value[i].item == ItemsOf(orderId)[i] && r.value[i].product == products[r.value[i].item.productId]
      ensures r.Ok? ==> forall i, j :: 0 <= i < j < |r.value| ==> r.value[i].item.id < r.value[j].item.id
      ensures r.Err? ==> r.error !in products
      ensures r.Err? ==> exists k :: k in orderItems && orderItems[k].orderId == orderId && orderItems[k].productId == r.error
    {
      var rows := ItemsOf(orderId);
      var r := JoinProducts(rows, OrderProductOf, products);
      assert r.Err? ==> exists k :: k in orderItems && orderItems[k].orderId == orderId && orderItems[k].productId == r.error by {
        if r.Err? {
          var i :| 0 <= i < |rows| && OrderProductOf(rows[i]) == r.error;
          assert rows[i] in rows;
        }
      }
      r
    }

    method CreateOrderItem(ins: InsertOrderItem) returns (o: OrderItem)
      requires Valid()
      modifies this`orderItems, this`orderItemId
      ensures Valid()
      ensures o == OrderItemRow(ins, old(orderItemId)) && o.id !in old(orderItems)
      ensures orderItems == old(orderItems)[o.id := o] && orderItemId == old(orderItemId) + 1
    {
      var id := orderItemId;
      orderItemId := orderItemId + 1;
      o := OrderItemRow(ins, id);
      orderItems := orderItems[id := o];
    }

    // ---- analytics

    /** All buckets, newest first (a stable sort of the insertion-ordered listing). */
    function BucketsNewestFirst(): (r: seq<Analytics>)
      reads this
      requires Valid()
      ensures |r| == |analyticsData|
      ensures forall a :: a in r ==> a.id in analyticsData && analyticsData[a.id] == a
      ensures forall k :: k in analyticsData ==> analyticsData[k] in r
      ensures forall i, j :: 0 <= i < j < |r| ==> r[i].date >= r[j].date
    {
      RowsOfTable(analyticsData, analyticsId, AnalyticsKey);
      var rows := Rows(analyticsData, analyticsId);
      var r := Seqs.SortByKey(rows, NegatedDate);
      assert forall i, j :: 0 <= i < j < |r| ==> NegatedDate(r[i]) <= NegatedDate(r[j]);
      r
    }

    /** The `days` newest buckets; a negative `days` drops that many from the end. */
    function GetDailyAnalytics(days: int): (r: seq<Analytics>)
      reads this
      requires Valid()
      ensures |r| <= |analyticsData| && r == BucketsNewestFirst()[..|r|]
      ensures 0 <= days ==> |r| == if days <= |analyticsData| then days else |analyticsData|
      ensures days < 0 ==> |r| == if -days <= |analyticsData| then |analyticsData| + days else 0
    {
      Seqs.SliceTo(BucketsNewestFirst(), days)
    }

    /** All products, most reviewed first. */
    function ProductsByReviews(): (r: seq<Product>)
      reads this
      requires Valid()
      ensures |r| == |products|
      ensures forall p :: p in r ==> p.id in products && products[p.id] == p
      ensures forall k :: k in products ==> products[k] in r
      ensures forall i, j :: 0 <= i < j < |r| ==> r[i].reviewCount >= r[j].reviewCount
    {
      RowsOfTable(products, productId, ProductKey);
      var rows := Rows(products, productId);
      var r := Seqs.SortByKey(rows, NegatedReviewCount);
      assert forall i, j :: 0 <= i < j < |r| ==> NegatedReviewCount(r[i]) <= NegatedReviewCount(r[j]);
      r
    }

    /** The `limit` most reviewed products (review count stands in for sales here). */
    function GetBestSellingProducts(limit: int): (r: seq<Product>)
      reads this
      requires Valid()
      ensures |r| <= |products| && r == ProductsByReviews()[..|r|]
      ensures 0 <= limit ==> |r| == if limit <= |products| then limit else |products|
    {
      Seqs.SliceTo(ProductsByReviews(), limit)
    }

    /** Stores a new bucket under a fresh id, dated `today` whatever the caller passed. */
    method UpdateAnalytics(ins: InsertAnalytics, today: int) returns (a: Analytics)
      requires Valid()
      modifies this`analyticsData, this`analyticsId
      ensures Valid()
      ensures a == AnalyticsRow(ins, old(analyticsId), today) && a.id !in old(analyticsData)
      ensures analyticsData == old(analyticsData)[a.id := a] && analyticsId == old(analyticsId) + 1
    {
      var id := analyticsId;
      analyticsId := analyticsId + 1;
      a := AnalyticsRow(ins, id, today);
      analyticsData := analyticsData[id := a];
    }
  }

  /** The search test: the query occurs in the name, or in a non-empty description, ignoring case. */
  predicate MatchesSearch(p: Product, query: string) {
    Text.Contains(Text.Lower(p.name), Text.Lower(query))
    || (p.description.Some? && p.description.value != ""
        && Text.Contains(Text.Lower(p.description.value), Text.Lower(query)))
  }
}
