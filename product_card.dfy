/**
 * The product card: the discount shown against the compare-at price, the
 * badges, the add button, the add-to-cart action and the star row. Prices
 * are in cents; a rating is in tenths of a star (45 is 4.5 stars).
 */
module ProductCard {
  import opened Wrappers
  import opened Schema

  /** What a click asks for: a page change, an add-to-cart mutation, or nothing. */
  datatype CartAction = Navigate(path: string) | AddItem(productId: int, quantity: int) | NoAction

  const AuthPage: string := "/auth"

  /** `Math.round(n / d)`, rounding half up: the integer `r` with `r <= n/d + 1/2 < r + 1`. */
  function RoundRatio(n: int, d: int): (r: int)
    requires d != 0
    ensures d > 0 ==> 2 * d * r <= 2 * n + d < 2 * d * r + 2 * d
    ensures d < 0 ==> 2 * d * r >= 2 * n + d > 2 * d * r + 2 * d
  {
    if d > 0 then
      var q := (2 * n + d) / (2 * d);
      assert 2 * n + d == (2 * d) * q + (2 * n + d) % (2 * d);
      q
    else
      var q := (-(2 * n + d)) / (-2 * d);
      assert -(2 * n + d) == (-2 * d) * q + (-(2 * n + d)) % (-2 * d);
      q
  }

  /**
   * `discountPercentage`: how much below the compare-at price the product
   * sells, in whole percent; 0 when there is no compare-at price (null or 0).
   * A negative compare-at price is truthy and is rounded the same way.
   */
  function DiscountPercentage(p: Product): (d: int)
    ensures p.comparePrice.None? || p.comparePrice.value == 0 ==> d == 0
    ensures p.comparePrice.Some? && p.comparePrice.value > 0 ==>
              2 * p.comparePrice.value * d <= 200 * (p.comparePrice.value - p.price) + p.comparePrice.value
              < 2 * p.comparePrice.value * d + 2 * p.comparePrice.value
    ensures p.comparePrice.Some? && p.comparePrice.value < 0 ==>
              2 * p.comparePrice.value * d >= 200 * (p.comparePrice.value - p.price) + p.comparePrice.value
              > 2 * p.comparePrice.value * d + 2 * p.comparePrice.value
  {
    match p.comparePrice
    case None => 0
    case Some(cp) => if cp == 0 then 0 else RoundRatio(100 * (cp - p.price), cp)
  }

  /** A sale price between 0 and the compare-at price gives a discount between 0% and 100%. */
  lemma DiscountBounds(p: Product)
    requires p.comparePrice.Some? && 0 <= p.price <= p.comparePrice.value && p.comparePrice.value > 0
    ensures 0 <= DiscountPercentage(p) <= 100
    ensures p.price == p.comparePrice.value ==> DiscountPercentage(p) == 0
  {
    var cp, d := p.comparePrice.value, DiscountPercentage(p);
    var m := cp - p.price;
    assert 2 * cp * d <= 200 * m + cp < 2 * cp * d + 2 * cp;
    assert 200 * m <= 200 * cp;
    MulCancel(2 * cp, -1, d);
    MulCancel(2 * cp, d, 101);
    if m == 0 {
      MulCancel(2 * cp, d, 1);
    }
  }

  lemma MulCancel(a: int, x: int, y: int)
    requires a > 0 && a * x < a * y
    ensures x < y
  {
  }

  /** The "-n%" label, shown only for a positive discount. */
  function DiscountBadge(p: Product): (b: Option<int>)
    ensures b.Some? <==> DiscountPercentage(p) > 0
    ensures b.Some? ==> b.value == DiscountPercentage(p)
    ensures p.comparePrice.None? ==> b.None?
  {
    var d := DiscountPercentage(p);
    if d > 0 then Some(d) else None
  }

  const NewBadge: string := "New"
  const BestSellerBadge: string := "Best Seller"

  /** The badges over the image, "New" first. */
  function Badges(p: Product): (r: seq<string>)
    ensures NewBadge in r <==> p.isNew
    ensures BestSellerBadge in r <==> p.isBestSeller
    ensures r == [] <==> !p.isNew && !p.isBestSeller
    ensures p.isNew ==> r[0] == NewBadge
  {
    (if p.isNew then [NewBadge] else []) + (if p.isBestSeller then [BestSellerBadge] else [])
  }

  datatype AddButton = AddButton(disabled: bool, caption: string)

  const AddLabel: string := "Add to Cart"
  const OutOfStockLabel: string := "Out of Stock"

  /**
   * The card's add button: disabled exactly at stock 0, captioned by stock > 0,
   * so a negative stock shows "Out of Stock" on a button that still works.
   */
  function CardButton(p: Product): (b: AddButton)
    ensures b.disabled <==> p.stock == 0
    ensures b.caption == AddLabel <==> p.stock > 0
    ensures b.caption == OutOfStockLabel <==> p.stock <= 0
    ensures p.stock < 0 ==> !b.disabled && b.caption == OutOfStockLabel
  {
    AddButton(p.stock == 0, if p.stock > 0 then AddLabel else OutOfStockLabel)
  }

  /** The card's add-to-cart click: one unit, or the sign-in page for a visitor. */
  function CardAddToCart(user: Option<User>, p: Product): (a: CartAction)
    ensures a.Navigate? <==> user.None?
    ensures a.Navigate? ==> a.path == AuthPage
    ensures a.AddItem? <==> user.Some?
    ensures a.AddItem? ==> a.productId == p.id && a.quantity == 1
  {
    if user.None? then Navigate(AuthPage) else AddItem(p.id, 1)
  }

  datatype Star = Full | Half | Empty

  /** `Math.floor(rating)` full stars; the loop runs no times for a negative count. */
  function FullStars(rating: int): nat {
    if rating / 10 > 0 then rating / 10 else 0
  }

  /** `rating % 1 >= 0.5`, where `%` keeps the sign of a negative rating. */
  predicate HasHalfStar(rating: int) {
    rating >= 0 && rating % 10 >= 5
  }

  function HalfStars(rating: int): nat {
    if HasHalfStar(rating) then 1 else 0
  }

  /** `5 - stars.length` empty stars, none once the row already holds five or more. */
  function EmptyStars(rating: int): nat {
    if FullStars(rating) + HalfStars(rating) < 5 then 5 - FullStars(rating) - HalfStars(rating) else 0
  }

  /** `renderStars`: full stars, then at most one half star, then empty stars up to five. */
  method RenderStars(rating: int) returns (stars: seq<Star>)
    ensures |stars| == FullStars(rating) + HalfStars(rating) + EmptyStars(rating)
    ensures forall i :: 0 <= i < |stars| ==> (stars[i] == Full <==> i < FullStars(rating))
    ensures forall i :: 0 <= i < |stars| ==> (stars[i] == Half <==> HasHalfStar(rating) && i == FullStars(rating))
    ensures |stars| >= 5
    ensures 0 <= rating <= 50 ==> |stars| == 5 && FullStars(rating) == rating / 10
  {
    stars := [];
    var full := FullStars(rating);
    var i := 0;
    while i < full
      invariant 0 <= i <= full
      invariant |stars| == i
      invariant forall k :: 0 <= k < i ==> stars[k] == Full
    {
      stars := stars + [Full];
      i := i + 1;
    }
    if HasHalfStar(rating) {
      stars := stars + [Half];
    }
    var empty := 5 - |stars|;
    i := 0;
    while i < empty
      invariant 0 <= i <= (if empty > 0 then empty else 0)
      invariant |stars| == full + HalfStars(rating) + i
      invariant forall k :: 0 <= k < full ==> stars[k] == Full
      invariant HasHalfStar(rating) ==> stars[full] == Half
      invariant forall k :: full + HalfStars(rating) <= k < |stars| ==> stars[k] == Empty
    {
      stars := stars + [Empty];
      i := i + 1;
    }
  }
}
