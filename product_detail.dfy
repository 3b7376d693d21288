/** The product detail page: loading one product, the star rating, and adding it to the cart. */
module ProductDetail {
  import opened Wrappers
  import opened Types

  const LoadErrorMessage := "Failed to load product. Please try again later."
  const CartPath := "/cart"

  /** One of the five rating icons: filled, filled at half opacity, or grey. */
  datatype Star = Full | Half | Empty

  /** The icon at `index`: full below the rating's floor, half below the rating, empty otherwise. */
  function StarAt(rating: real, index: int): Star {
    if index < rating.Floor then Full
    else if (index as real) < rating then Half
    else Empty
  }

  /** `renderRatingStars`: the five icons for indices 0 to 4. */
  function RenderRatingStars(rating: real): (r: seq<Star>)
    ensures |r| == 5
    ensures forall i :: 0 <= i < 5 ==> (r[i] == Full <==> i < rating.Floor)
    ensures forall i :: 0 <= i < 5 ==> (r[i] == Half <==> rating.Floor <= i && (i as real) < rating)
  {
    seq(5, i => StarAt(rating, i))
  }

  /**
   * There is at most one half star: it sits at the rating's floor, and only a
   * rating strictly between two integers below 5 has one.
   */
  lemma AtMostOneHalf(rating: real, i: nat)
    requires i < 5 && RenderRatingStars(rating)[i] == Half
    ensures i == rating.Floor
    ensures rating != rating.Floor as real && rating < 5.0
    ensures forall j :: 0 <= j < 5 && j != i ==> RenderRatingStars(rating)[j] != Half
  {
  }

  /** A non-integer rating strictly between 0 and 5 shows a half star at its floor. */
  lemma HalfStarShown(rating: real)
    requires 0.0 < rating < 5.0 && rating != rating.Floor as real
    ensures 0 <= rating.Floor < 5 && RenderRatingStars(rating)[rating.Floor] == Half
  {
  }

  /** A rating of 5 or more shows five full stars; 0 or less shows five empty ones. */
  lemma ExtremeRatings(rating: real)
    ensures rating >= 5.0 ==> RenderRatingStars(rating) == [Full, Full, Full, Full, Full]
    ensures rating <= 0.0 ==> RenderRatingStars(rating) == [Empty, Empty, Empty, Empty, Empty]
  {
    var r := RenderRatingStars(rating);
    if rating >= 5.0 {
      assert 5 <= rating.Floor;
    }
    assert r == [r[0], r[1], r[2], r[3], r[4]];
  }

  /** The full stars come first, then at most one half star, then the empty ones. */
  lemma StarsAreOrdered(rating: real, i: nat, j: nat)
    requires i < j < 5
    ensures RenderRatingStars(rating)[j] == Full ==> RenderRatingStars(rating)[i] == Full
    ensures RenderRatingStars(rating)[j] == Half ==> RenderRatingStars(rating)[i] == Full
  {
  }

  /** The state the page reaches when loading finishes. */
  datatype DetailView = DetailView(product: Option<Product>, error: Option<string>, isLoading: bool, quantity: int)

  /** The state before loading: no product, no error, quantity 1. */
  const InitialView := DetailView(None, None, true, 1)

  /** A route parameter JavaScript treats as false: absent or empty. */
  predicate Missing(id: Option<string>) {
    id.None? || id.value == ""
  }

  /**
   * The loading effect. `fetched` is what `getProduct(parseInt(id))` resolved to.
   * A missing id or a `null` product raises, and the handler sets the error message
   * and leaves the product as it was; otherwise the product is stored and the error
   * cleared.
   */
  function LoadProduct(view: DetailView, id: Option<string>, fetched: Option<Product>): (r: DetailView)
    ensures !r.isLoading && r.quantity == view.quantity
    ensures r.error.None? <==> !Missing(id) && fetched.Some?
    ensures r.error.Some? ==> r.error == Some(LoadErrorMessage) && r.product == view.product
    ensures r.error.None? ==> r.product == fetched
  {
    if Missing(id) || fetched.None? then view.(error := Some(LoadErrorMessage), isLoading := false)
    else view.(product := fetched, error := None, isLoading := false)
  }

  /** What one click on "Add to Cart" does. */
  datatype AddEffect = AddEffect(added: Option<(Product, int)>, navigateTo: Option<string>)

  /** `handleAddToCart`: with a product, add it with the chosen quantity and go to the cart; without, nothing. */
  function HandleAddToCart(view: DetailView): (e: AddEffect)
    ensures e.added.Some? <==> view.product.Some?
    ensures e.navigateTo.Some? <==> view.product.Some?
    ensures view.product.Some? ==> e.added == Some((view.product.value, view.quantity)) && e.navigateTo == Some(CartPath)
  {
    match view.product
    case Some(p) => AddEffect(Some((p, view.quantity)), Some(CartPath))
    case None => AddEffect(None, None)
  }

  /** From the initial state, the cart receives a product only after a load that found it, with quantity 1. */
  lemma AddOnlyAfterLoad(id: Option<string>, fetched: Option<Product>)
    ensures HandleAddToCart(LoadProduct(InitialView, id, fetched)).added.Some? <==> !Missing(id) && fetched.Some?
    ensures !Missing(id) && fetched.Some? ==>
      HandleAddToCart(LoadProduct(InitialView, id, fetched)).added == Some((fetched.value, 1))
  {
  }
}
