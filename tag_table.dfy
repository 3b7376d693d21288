/**
 * The table from upstream tags (as the three catalogs spell them, in lower case)
 * to the storefront's canonical categories: 43 entries, grouped as in the
 * storefront's own listing. The object literal is written as a `match`, which
 * tries the keys in order; they are pairwise distinct, so the order is immaterial.
 */
module TagTable {
  import opened Wrappers

  /** The category the table assigns to `tag`, or `None` when `tag` is not a key. */
  function TagCategory(tag: string): Option<string>
  {
    match tag
    // Electronics
    case "smartphones" => Some("electronics")
    case "laptops" => Some("electronics")
    case "automotive" => Some("electronics")
    case "lighting" => Some("electronics")
    // Home & Living
    case "furniture" => Some("home & living")
    case "home-decoration" => Some("home & living")
    case "kitchen" => Some("home & living")
    case "garden" => Some("home & living")
    // Beauty & Personal Care
    case "skincare" => Some("beauty & personal care")
    case "fragrances" => Some("beauty & personal care")
    case "cosmetics" => Some("beauty & personal care")
    case "personal-care" => Some("beauty & personal care")
    // Food & Beverages
    case "groceries" => Some("food & beverages")
    case "snacks" => Some("food & beverages")
    case "beverages" => Some("food & beverages")
    case "organic-food" => Some("food & beverages")
    // Women's Fashion
    case "tops" => Some("women's clothing")
    case "womens-dresses" => Some("women's clothing")
    case "womens-shoes" => Some("women's clothing")
    case "womens-watches" => Some("women's clothing")
    case "womens-bags" => Some("women's clothing")
    // Jewelry & Accessories
    case "womens-jewellery" => Some("jewelry & accessories")
    case "mens-watches" => Some("jewelry & accessories")
    case "sunglasses" => Some("jewelry & accessories")
    case "accessories" => Some("jewelry & accessories")
    // Men's Fashion
    case "mens-shirts" => Some("men's clothing")
    case "mens-shoes" => Some("men's clothing")
    case "mens-accessories" => Some("men's clothing")
    // Sports & Outdoors
    case "sports-equipment" => Some("sports & outdoors")
    case "outdoor-gear" => Some("sports & outdoors")
    case "fitness" => Some("sports & outdoors")
    // Books & Stationery
    case "books" => Some("books & stationery")
    case "stationery" => Some("books & stationery")
    case "art-supplies" => Some("books & stationery")
    // Toys & Games
    case "toys" => Some("toys & games")
    case "games" => Some("toys & games")
    case "hobbies" => Some("toys & games")
    // Health & Wellness
    case "healthcare" => Some("health & wellness")
    case "medical-supplies" => Some("health & wellness")
    case "wellness" => Some("health & wellness")
    // Pet Supplies
    case "pet-food" => Some("pet supplies")
    case "pet-accessories" => Some("pet supplies")
    case "pet-care" => Some("pet supplies")
    case _ => None
  }

  // Facts about single literals, one per lemma so that each stays a small proof.

  lemma ElectronicsIsNotATag()
    ensures TagCategory("electronics") == None
  {
  }

  lemma ElectronicsIsTagged()
    ensures exists k :: TagCategory(k) == Some("electronics")
  {
    assert TagCategory("lighting") == Some("electronics");
  }

  lemma HomeAndLivingIsNotATag()
    ensures TagCategory("home & living") == None
  {
  }

  lemma HomeAndLivingIsTagged()
    ensures exists k :: TagCategory(k) == Some("home & living")
  {
    assert TagCategory("garden") == Some("home & living");
  }

  lemma BeautyAndPersonalCareIsNotATag()
    ensures TagCategory("beauty & personal care") == None
  {
  }

  lemma BeautyAndPersonalCareIsTagged()
    ensures exists k :: TagCategory(k) == Some("beauty & personal care")
  {
    assert TagCategory("personal-care") == Some("beauty & personal care");
  }

  lemma FoodAndBeveragesIsNotATag()
    ensures TagCategory("food & beverages") == None
  {
  }

  lemma FoodAndBeveragesIsTagged()
    ensures exists k :: TagCategory(k) == Some("food & beverages")
  {
    assert TagCategory("organic-food") == Some("food & beverages");
  }

  lemma WomensClothingIsNotATag()
    ensures TagCategory("women's clothing") == None
  {
  }

  lemma WomensClothingIsTagged()
    ensures exists k :: TagCategory(k) == Some("women's clothing")
  {
    assert TagCategory("womens-bags") == Some("women's clothing");
  }

  lemma JewelryAndAccessoriesIsNotATag()
    ensures TagCategory("jewelry & accessories") == None
  {
  }

  lemma JewelryAndAccessoriesIsTagged()
    ensures exists k :: TagCategory(k) == Some("jewelry & accessories")
  {
    assert TagCategory("accessories") == Some("jewelry & accessories");
  }

  lemma MensClothingIsNotATag()
    ensures TagCategory("men's clothing") == None
  {
  }

  lemma MensClothingIsTagged()
    ensures exists k :: TagCategory(k) == Some("men's clothing")
  {
    assert TagCategory("mens-accessories") == Some("men's clothing");
  }

  lemma SportsAndOutdoorsIsNotATag()
    ensures TagCategory("sports & outdoors") == None
  {
  }

  lemma SportsAndOutdoorsIsTagged()
    ensures exists k :: TagCategory(k) == Some("sports & outdoors")
  {
    assert TagCategory("fitness") == Some("sports & outdoors");
  }

  lemma BooksAndStationeryIsNotATag()
    ensures TagCategory("books & stationery") == None
  {
  }

  lemma BooksAndStationeryIsTagged()
    ensures exists k :: TagCategory(k) == Some("books & stationery")
  {
    assert TagCategory("art-supplies") == Some("books & stationery");
  }

  lemma ToysAndGamesIsNotATag()
    ensures TagCategory("toys & games") == None
  {
  }

  lemma ToysAndGamesIsTagged()
    ensures exists k :: TagCategory(k) == Some("toys & games")
  {
    assert TagCategory("hobbies") == Some("toys & games");
  }

  lemma HealthAndWellnessIsNotATag()
    ensures TagCategory("health & wellness") == None
  {
  }

  lemma HealthAndWellnessIsTagged()
    ensures exists k :: TagCategory(k) == Some("health & wellness")
  {
    assert TagCategory("wellness") == Some("health & wellness");
  }

  lemma PetSuppliesIsNotATag()
    ensures TagCategory("pet supplies") == None
  {
  }

  lemma PetSuppliesIsTagged()
    ensures exists k :: TagCategory(k) == Some("pet supplies")
  {
    assert TagCategory("pet-care") == Some("pet supplies");
  }

  lemma UnknownIsNotATag()
    ensures TagCategory("unknown-tag-xyz") == None
  {
  }
}
