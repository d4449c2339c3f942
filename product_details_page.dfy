/**
 * The product details page: the quantity stepper, the related-product
 * strip, the add-to-cart action, the discount and the image gallery. Its
 * star row follows the card's rule (`ProductCard.RenderStars`).
 */
module ProductDetailsPage {
  import opened Wrappers
  import opened Schema
  import Seqs
  import ProductCard

  /** `product?.stock || 1`: the stock, or 1 while there is no product or the stock is 0. */
  function QuantityLimit(product: Option<Product>): (limit: int)
    ensures product.None? ==> limit == 1
    ensures product.Some? && product.value.stock == 0 ==> limit == 1
    ensures product.Some? && product.value.stock != 0 ==> limit == product.value.stock
  {
    match product
    case None => 1
    case Some(p) => if p.stock == 0 then 1 else p.stock
  }

  /** `handleQuantityChange`: take the step only when it lands within [1, limit]. */
  function QuantityChange(quantity: int, amount: int, product: Option<Product>): (q: int)
    ensures 1 <= quantity + amount <= QuantityLimit(product) ==> q == quantity + amount
    ensures !(1 <= quantity + amount <= QuantityLimit(product)) ==> q == quantity
  {
    var next := quantity + amount;
    if 1 <= next && next <= QuantityLimit(product) then next else quantity
  }

  /** A quantity within [1, limit] stays there whatever the step. */
  lemma StepperStaysInRange(quantity: int, amount: int, product: Option<Product>)
    requires 1 <= quantity <= QuantityLimit(product)
    ensures 1 <= QuantityChange(quantity, amount, product) <= QuantityLimit(product)
  {
  }

  /** Any product other than the one on the page (every product while it loads). */
  predicate IsOther(p: Product, current: Option<Product>) {
    current.None? || p.id != current.value.id
  }

  /** `related.filter(p => p.id !== product?.id)`: the other products, in fetched order. */
  function Others(related: seq<Product>, current: Option<Product>): (o: seq<Product>)
    ensures forall p :: p in o <==> p in related && IsOther(p, current)
  {
    var o := Seqs.Filter(related, (p: Product) => IsOther(p, current));
    assert forall p :: p in o ==> p in related by {
      forall p | p in o ensures p in related {
        assert p in multiset(o);
      }
    }
    o
  }

  /** The others of a concatenation are the others of each part, in order. */
  lemma OthersAppend(a: seq<Product>, b: seq<Product>, current: Option<Product>)
    ensures Others(a + b, current) == Others(a, current) + Others(b, current)
  {
    Seqs.FilterAppend(a, b, (p: Product) => IsOther(p, current));
  }

  /** `filteredRelatedProducts`: the first four others, in the fetched order. */
  function RelatedProducts(related: seq<Product>, current: Option<Product>): (r: seq<Product>)
    ensures |r| == if |Others(related, current)| < 4 then |Others(related, current)| else 4
    ensures r == Others(related, current)[..|r|]
    ensures forall p :: p in r ==> p in related
    ensures current.Some? ==> forall p :: p in r ==> p.id != current.value.id
    ensures forall p :: p in related && IsOther(p, current) ==> p in r || |r| == 4
  {
    var others := Others(related, current);
    var r := Seqs.SliceTo(others, 4);
    assert |r| < 4 ==> r == others;
    r
  }

  /** `handleAddToCart`: the chosen quantity of the shown product, or the sign-in page for a visitor. */
  function AddToCart(user: Option<User>, product: Option<Product>, quantity: int): (a: ProductCard.CartAction)
    ensures a.Navigate? <==> user.None?
    ensures a.Navigate? ==> a.path == ProductCard.AuthPage
    ensures a.AddItem? <==> user.Some? && product.Some?
    ensures a.AddItem? ==> a.productId == product.value.id && a.quantity == quantity
    ensures a == ProductCard.NoAction <==> user.Some? && product.None?
  {
    if user.None? then ProductCard.Navigate(ProductCard.AuthPage)
    else if product.Some? then ProductCard.AddItem(product.value.id, quantity)
    else ProductCard.NoAction
  }

  /** The page's "Save n%": the card's rule, 0 before the product has loaded. */
  function Discount(product: Option<Product>): (d: int)
    ensures product.None? ==> d == 0
    ensures product.Some? ==> d == ProductCard.DiscountPercentage(product.value)
    ensures product.Some? && (product.value.comparePrice.None? || product.value.comparePrice.value == 0) ==> d == 0
  {
    match product
    case None => 0
    case Some(p) => ProductCard.DiscountPercentage(p)
  }

  /** How a template literal writes a possibly-null URL. */
  function UrlText(url: Option<string>): string {
    match url
    case None => "null"
    case Some(u) => u
  }

  function Variant(url: Option<string>, n: int): string
    requires 2 <= n <= 4
  {
    UrlText(url) + "?v=" + [('0' as int + n) as char]
  }

  /** `productImages`: the product's own image, then three variants of its URL. */
  function ProductImages(product: Option<Product>): (r: seq<Option<string>>)
    ensures product.None? ==> r == []
    ensures product.Some? ==> |r| == 4 && r[0] == product.value.imageUrl
    ensures product.Some? ==> forall n :: 2 <= n <= 4 ==> r[n - 1] == Some(Variant(product.value.imageUrl, n))
  {
    match product
    case None => []
    case Some(p) => [p.imageUrl, Some(Variant(p.imageUrl, 2)), Some(Variant(p.imageUrl, 3)), Some(Variant(p.imageUrl, 4))]
  }

  /** The gallery's four images are four different entries. */
  lemma ImagesDistinct(product: Option<Product>)
    requires product.Some?
    ensures Seqs.NoDuplicates(ProductImages(product))
  {
    var u := product.value.imageUrl;
    var r := ProductImages(product);
    forall i, j | 0 <= i < j < 4 ensures r[i] != r[j] {
      if i == 0 && u.Some? {
        assert |r[j].value| == |u.value| + 4;
      } else if i > 0 {
        assert r[i].value[|r[i].value| - 1] != r[j].value[|r[j].value| - 1];
      }
    }
  }
}
