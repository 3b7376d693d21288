/** The category page: the products of the category named in the route, under a formatted heading. */
module CategoryPage {
  import opened Wrappers
  import opened Types
  import opened Text
  import opened Api
  import opened Labels

  const LoadErrorMessage := "Failed to load products. Please try again later."

  /** What the page shows once loading has finished. */
  datatype CategoryView = CategoryView(products: seq<Product>, error: Option<string>, isLoading: bool)

  /** A route parameter JavaScript treats as false: absent or empty. */
  predicate Missing(categoryName: Option<string>) {
    categoryName.None? || categoryName.value == ""
  }

  /**
   * The effect that loads the page: a missing category name raises, and the handler
   * sets the error message without fetching and without touching the product list;
   * otherwise the list is `getProductsByCategory` of the catalog, and the error is
   * cleared.
   */
  function LoadCategory(view: CategoryView, categoryName: Option<string>, catalog: Result<seq<Product>, FetchError>): (r: CategoryView)
    ensures !r.isLoading
    ensures Missing(categoryName) ==> r.error == Some(LoadErrorMessage) && r.products == view.products
    ensures !Missing(categoryName) ==> r.error.None?
    ensures !Missing(categoryName) ==> r.products == GetProductsByCategory(categoryName.value, catalog)
    ensures !Missing(categoryName) ==> forall p :: p in r.products ==> InCategory(p, categoryName.value)
    ensures !Missing(categoryName) && catalog.Success? ==>
      forall p :: p in catalog.value && InCategory(p, categoryName.value) ==> p in r.products
  {
    if Missing(categoryName) then
      view.(error := Some(LoadErrorMessage), isLoading := false)
    else
      view.(products := GetProductsByCategory(categoryName.value, catalog), error := None, isLoading := false)
  }

  /** The heading and breadcrumb label: the formatted name, or empty without one. */
  function DisplayCategoryName(categoryName: Option<string>): (r: string)
    ensures Missing(categoryName) ==> r == ""
    ensures categoryName.Some? ==> |r| == |categoryName.value| && LowerStr(r) == LowerStr(categoryName.value)
    ensures !Missing(categoryName) ==> r == FormatCategoryName(categoryName.value)
  {
    if Missing(categoryName) then ""
    else
      FormatKeepsShape(categoryName.value);
      FormatKeepsLowered(categoryName.value);
      FormatCategoryName(categoryName.value)
  }

  /** Every product shown belongs, up to letter case, to the category in the heading. */
  lemma ShownProductsMatchHeading(view: CategoryView, categoryName: Option<string>, catalog: Result<seq<Product>, FetchError>)
    requires !Missing(categoryName)
    ensures forall p :: p in LoadCategory(view, categoryName, catalog).products ==>
      LowerStr(p.category) == LowerStr(DisplayCategoryName(categoryName))
  {
  }
}
