/**
 * The category taxonomy of the catalog: the case-insensitive lookup of an
 * upstream tag in the tag table, and the list of canonical categories the
 * filter pages show.
 */
module Categories {
  import opened Wrappers
  import opened Text
  import opened TagTable

  /** The twelve canonical categories, in the order the filter lists show them. */
  function GetCategories(): (r: seq<string>)
    ensures |r| == 12
    ensures forall i, j :: 0 <= i < j < |r| ==> r[i] != r[j]
  {
    var r := [ "electronics", "home & living", "beauty & personal care", "food & beverages",
      "women's clothing", "men's clothing", "jewelry & accessories", "sports & outdoors",
      "books & stationery", "toys & games", "health & wellness", "pet supplies" ];
    assert r[1][0] == 'h' && r[10][0] == 'h' && r[2][0] == 'b' && r[8][0] == 'b';
    r
  }

  /** A string the tag table has an entry for. */
  predicate IsTag(key: string) {
    TagCategory(key).Some?
  }

  /** Every value of the tag table is a canonical category. */
  lemma TableIntoCategories(key: string)
    ensures IsTag(key) ==> TagCategory(key).value in GetCategories()
  {
  }

  /**
   * Case-insensitive table lookup; an unknown tag comes back unchanged, in its
   * original case. (Every table value is non-empty, so the fallback fires
   * exactly when the key is absent.)
   */
  function NormalizeCategory(tag: string): (r: string)
    ensures IsTag(LowerStr(tag)) ==> r in GetCategories()
    ensures !IsTag(LowerStr(tag)) ==> r == tag
  {
    TableIntoCategories(LowerStr(tag));
    match TagCategory(LowerStr(tag))
    case Some(c) => c
    case None => tag
  }

  lemma ElectronicsIsLowerCase()
    ensures IsLowerCase("electronics")
  {
  }

  lemma HomeAndLivingIsLowerCase()
    ensures IsLowerCase("home & living")
  {
  }

  lemma BeautyAndPersonalCareIsLowerCase()
    ensures IsLowerCase("beauty & personal care")
  {
  }

  lemma FoodAndBeveragesIsLowerCase()
    ensures IsLowerCase("food & beverages")
  {
  }

  lemma WomensClothingIsLowerCase()
    ensures IsLowerCase("women's clothing")
  {
  }

  lemma MensClothingIsLowerCase()
    ensures IsLowerCase("men's clothing")
  {
  }

  lemma JewelryAndAccessoriesIsLowerCase()
    ensures IsLowerCase("jewelry & accessories")
  {
  }

  lemma SportsAndOutdoorsIsLowerCase()
    ensures IsLowerCase("sports & outdoors")
  {
  }

  lemma BooksAndStationeryIsLowerCase()
    ensures IsLowerCase("books & stationery")
  {
  }

  lemma ToysAndGamesIsLowerCase()
    ensures IsLowerCase("toys & games")
  {
  }

  lemma HealthAndWellnessIsLowerCase()
    ensures IsLowerCase("health & wellness")
  {
  }

  lemma PetSuppliesIsLowerCase()
    ensures IsLowerCase("pet supplies")
  {
  }

  /** A canonical category is not itself a tag, and lower case already. */
  lemma CanonicalIsFixed(c: string)
    requires c in GetCategories()
    ensures !IsTag(c) && LowerStr(c) == c
  {
    if c == "electronics" {
      ElectronicsIsNotATag();
      ElectronicsIsLowerCase();
    } else if c == "home & living" {
      HomeAndLivingIsNotATag();
      HomeAndLivingIsLowerCase();
    } else if c == "beauty & personal care" {
      BeautyAndPersonalCareIsNotATag();
      BeautyAndPersonalCareIsLowerCase();
    } else if c == "food & beverages" {
      FoodAndBeveragesIsNotATag();
      FoodAndBeveragesIsLowerCase();
    } else if c == "women's clothing" {
      WomensClothingIsNotATag();
      WomensClothingIsLowerCase();
    } else if c == "men's clothing" {
      MensClothingIsNotATag();
      MensClothingIsLowerCase();
    } else if c == "jewelry & accessories" {
      JewelryAndAccessoriesIsNotATag();
      JewelryAndAccessoriesIsLowerCase();
    } else if c == "sports & outdoors" {
      SportsAndOutdoorsIsNotATag();
      SportsAndOutdoorsIsLowerCase();
    } else if c == "books & stationery" {
      BooksAndStationeryIsNotATag();
      BooksAndStationeryIsLowerCase();
    } else if c == "toys & games" {
      ToysAndGamesIsNotATag();
      ToysAndGamesIsLowerCase();
    } else if c == "health & wellness" {
      HealthAndWellnessIsNotATag();
      HealthAndWellnessIsLowerCase();
    } else if c == "pet supplies" {
      PetSuppliesIsNotATag();
      PetSuppliesIsLowerCase();
    }
    LowerStrFixes(c);
  }

  /** Each canonical category is the image of at least one upstream tag. */
  lemma EveryCategoryHasTag(c: string)
    requires c in GetCategories()
    ensures exists k :: TagCategory(k) == Some(c)
  {
    if c == "electronics" {
      ElectronicsIsTagged();
    } else if c == "home & living" {
      HomeAndLivingIsTagged();
    } else if c == "beauty & personal care" {
      BeautyAndPersonalCareIsTagged();
    } else if c == "food & beverages" {
      FoodAndBeveragesIsTagged();
    } else if c == "women's clothing" {
      WomensClothingIsTagged();
    } else if c == "men's clothing" {
      MensClothingIsTagged();
    } else if c == "jewelry & accessories" {
      JewelryAndAccessoriesIsTagged();
    } else if c == "sports & outdoors" {
      SportsAndOutdoorsIsTagged();
    } else if c == "books & stationery" {
      BooksAndStationeryIsTagged();
    } else if c == "toys & games" {
      ToysAndGamesIsTagged();
    } else if c == "health & wellness" {
      HealthAndWellnessIsTagged();
    } else if c == "pet supplies" {
      PetSuppliesIsTagged();
    }
  }

  /** A canonical category normalizes to itself. */
  lemma NormalizeCanonical(c: string)
    requires c in GetCategories()
    ensures NormalizeCategory(c) == c
  {
    CanonicalIsFixed(c);
  }

  /** Normalizing twice is normalizing once. */
  lemma NormalizeIdempotent(tag: string)
    ensures NormalizeCategory(NormalizeCategory(tag)) == NormalizeCategory(tag)
  {
    if IsTag(LowerStr(tag)) {
      NormalizeCanonical(NormalizeCategory(tag));
    }
  }

  /** The lookup ignores case: two tags equal up to case normalize alike, unless neither is a tag. */
  lemma NormalizeIgnoresCase(a: string, b: string)
    requires LowerStr(a) == LowerStr(b) && IsTag(LowerStr(a))
    ensures NormalizeCategory(a) == NormalizeCategory(b)
  {
  }

  /** A known tag in any case, and an unknown tag kept verbatim. */
  lemma NormalizeExamples()
    ensures NormalizeCategory("LightinG") == "electronics"
    ensures NormalizeCategory("UNKNOWN-TAG-xyz") == "UNKNOWN-TAG-xyz"
  {
    assert LowerStr("LightinG") == "lighting";
    assert TagCategory("lighting") == Some("electronics");
    assert LowerStr("UNKNOWN-TAG-xyz") == "unknown-tag-xyz";
    UnknownIsNotATag();
  }
}
