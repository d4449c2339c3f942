/**
 * The tables shared by client and server: one datatype per row shape, one
 * per insert shape (the row without the columns the insert schema omits),
 * the column defaults, and the login validation rule.
 *
 * Prices, totals and sales are integer cents; ratings are integer tenths of
 * a star; dates and timestamps are integer day numbers.
 */
module Schema {
  import opened Wrappers

  const DefaultRole: string := "customer"
  const AdminRole: string := "admin"
  const DefaultOrderStatus: string := "pending"
  const DefaultCartQuantity: int := 1

  datatype User = User(
    id: int, username: string, password: string,
    firstName: Option<string>, lastName: Option<string>, email: Option<string>,
    role: Option<string>)

  /** The user insert schema: every column but `id`; `role` may be left out. */
  datatype InsertUser = InsertUser(
    username: string, password: string,
    firstName: Option<string>, lastName: Option<string>, email: Option<string>,
    role: Option<string>)

  datatype Category = Category(
    id: int, name: string, slug: string, description: Option<string>, imageUrl: Option<string>)

  datatype InsertCategory = InsertCategory(
    name: string, slug: string, description: Option<string>, imageUrl: Option<string>)

  datatype Product = Product(
    id: int, name: string, slug: string, description: Option<string>,
    price: int, comparePrice: Option<int>, categoryId: int, imageUrl: Option<string>,
    rating: int, reviewCount: int, stock: int,
    tags: Option<seq<string>>, featuredTag: Option<string>,
    isNew: bool, isFeatured: bool, isBestSeller: bool)

  /** The product insert schema: no `id`; the defaulted columns may be left out. */
  datatype InsertProduct = InsertProduct(
    name: string, slug: string, description: Option<string>,
    price: int, comparePrice: Option<int>, categoryId: int, imageUrl: Option<string>,
    rating: Option<int>, reviewCount: Option<int>, stock: Option<int>,
    tags: Option<seq<string>>, featuredTag: Option<string>,
    isNew: Option<bool>, isFeatured: Option<bool>, isBestSeller: Option<bool>)

  /** `Partial<InsertProduct>`: `None` is a field the update does not carry. */
  datatype ProductPatch = ProductPatch(
    name: Option<string>, slug: Option<string>, description: Option<Option<string>>,
    price: Option<int>, comparePrice: Option<Option<int>>, categoryId: Option<int>,
    imageUrl: Option<Option<string>>,
    rating: Option<int>, reviewCount: Option<int>, stock: Option<int>,
    tags: Option<Option<seq<string>>>, featuredTag: Option<Option<string>>,
    isNew: Option<bool>, isFeatured: Option<bool>, isBestSeller: Option<bool>)

  datatype CartItem = CartItem(id: int, userId: int, productId: int, quantity: int)

  datatype InsertCartItem = InsertCartItem(userId: int, productId: int, quantity: Option<int>)

  datatype Order = Order(id: int, userId: int, total: int, status: string, createdAt: int)

  /** The order insert schema omits `id` and `createdAt`. */
  datatype InsertOrder = InsertOrder(userId: int, total: int, status: Option<string>)

  datatype OrderItem = OrderItem(id: int, orderId: int, productId: int, price: int, quantity: int)

  datatype InsertOrderItem = InsertOrderItem(orderId: int, productId: int, price: int, quantity: int)

  datatype Analytics = Analytics(id: int, date: int, sales: int, orders: int, customers: int)

  /** The analytics insert schema omits `id` and `date`. */
  datatype InsertAnalytics = InsertAnalytics(sales: Option<int>, orders: Option<int>, customers: Option<int>)

  /** A stored row joined with the product it references (`T & { product: Product }`). */
  datatype Joined<T> = Joined(item: T, product: Product)

  type CartLine = Joined<CartItem>
  type OrderLine = Joined<OrderItem>

  /** The user row stored for an insert under `id`. */
  function UserRow(ins: InsertUser, id: int): (u: User)
    ensures u.id == id && u.username == ins.username && u.password == ins.password
    ensures u.firstName == ins.firstName && u.lastName == ins.lastName && u.email == ins.email
    ensures ins.role.None? ==> u.role == Some(DefaultRole)
    ensures ins.role.Some? ==> u.role == ins.role
  {
    User(id, ins.username, ins.password, ins.firstName, ins.lastName, ins.email,
         Some(ins.role.GetOr(DefaultRole)))
  }

  function CategoryRow(ins: InsertCategory, id: int): (c: Category)
    ensures c.id == id && c.name == ins.name && c.slug == ins.slug
    ensures c.description == ins.description && c.imageUrl == ins.imageUrl
  {
    Category(id, ins.name, ins.slug, ins.description, ins.imageUrl)
  }

  /** Rating, review count and stock default to 0, the three flags to false. */
  function ProductRow(ins: InsertProduct, id: int): (p: Product)
    ensures p.id == id && p.name == ins.name && p.slug == ins.slug && p.price == ins.price
    ensures p.description == ins.description && p.comparePrice == ins.comparePrice
    ensures p.categoryId == ins.categoryId && p.imageUrl == ins.imageUrl
    ensures p.tags == ins.tags && p.featuredTag == ins.featuredTag
    ensures p.rating == (if ins.rating.Some? then ins.rating.value else 0)
    ensures p.reviewCount == (if ins.reviewCount.Some? then ins.reviewCount.value else 0)
    ensures p.stock == (if ins.stock.Some? then ins.stock.value else 0)
    ensures p.isNew == (ins.isNew == Some(true))
    ensures p.isFeatured == (ins.isFeatured == Some(true))
    ensures p.isBestSeller == (ins.isBestSeller == Some(true))
  {
    Product(id, ins.name, ins.slug, ins.description, ins.price, ins.comparePrice,
            ins.categoryId, ins.imageUrl,
            ins.rating.GetOr(0), ins.reviewCount.GetOr(0), ins.stock.GetOr(0),
            ins.tags, ins.featuredTag,
            ins.isNew.GetOr(false), ins.isFeatured.GetOr(false), ins.isBestSeller.GetOr(false))
  }

  /** Cart item quantity defaults to 1. */
  function CartItemRow(ins: InsertCartItem, id: int): (c: CartItem)
    ensures c.id == id && c.userId == ins.userId && c.productId == ins.productId
    ensures ins.quantity.None? ==> c.quantity == DefaultCartQuantity
    ensures ins.quantity.Some? ==> c.quantity == ins.quantity.value
  {
    CartItem(id, ins.userId, ins.productId, ins.quantity.GetOr(DefaultCartQuantity))
  }

  /** Order status defaults to "pending"; the creation time is supplied, never inserted. */
  function OrderRow(ins: InsertOrder, id: int, createdAt: int): (o: Order)
    ensures o.id == id && o.userId == ins.userId && o.total == ins.total && o.createdAt == createdAt
    ensures ins.status.None? ==> o.status == DefaultOrderStatus
    ensures ins.status.Some? ==> o.status == ins.status.value
  {
    Order(id, ins.userId, ins.total, ins.status.GetOr(DefaultOrderStatus), createdAt)
  }

  function OrderItemRow(ins: InsertOrderItem, id: int): (o: OrderItem)
    ensures o.id == id && o.orderId == ins.orderId && o.productId == ins.productId
    ensures o.price == ins.price && o.quantity == ins.quantity
  {
    OrderItem(id, ins.orderId, ins.productId, ins.price, ins.quantity)
  }

  /** Sales, orders and customers default to 0; the date is supplied, never inserted. */
  function AnalyticsRow(ins: InsertAnalytics, id: int, date: int): (a: Analytics)
    ensures a.id == id && a.date == date
    ensures a.sales == (if ins.sales.Some? then ins.sales.value else 0)
    ensures a.orders == (if ins.orders.Some? then ins.orders.value else 0)
    ensures a.customers == (if ins.customers.Some? then ins.customers.value else 0)
  {
    Analytics(id, date, ins.sales.GetOr(0), ins.orders.GetOr(0), ins.customers.GetOr(0))
  }

  const UsernameTooShort: string := "Username must be at least 3 characters"
  const PasswordTooShort: string := "Password must be at least 6 characters"

  /** The messages `loginSchema` reports, in field order; empty when the login data is accepted. */
  function LoginErrors(username: string, password: string): (errors: seq<string>)
    ensures errors == [] <==> |username| >= 3 && |password| >= 6
    ensures UsernameTooShort in errors <==> |username| < 3
    ensures PasswordTooShort in errors <==> |password| < 6
    ensures |errors| <= 2
  {
    (if |username| < 3 then [UsernameTooShort] else [])
    + (if |password| < 6 then [PasswordTooShort] else [])
  }
}
