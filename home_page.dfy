/** The home page: the eight best-rated products and the category tiles with their images. */
module HomePage {
  import opened Wrappers
  import opened Types
  import opened Text
  import opened Sorting
  import opened Categories

  const FeaturedCount := 8

  /** The number of products shown as featured out of `n`. */
  function FeaturedLength(n: nat): nat {
    if n < FeaturedCount then n else FeaturedCount
  }

  /** The featured list: the catalog stably sorted by descending rate, then its first eight. */
  function Featured(all: seq<Product>): (r: seq<Product>)
    ensures |r| == FeaturedLength(|all|)
  {
    InsertionSortCorrect(RateDescending, all);
    InsertionSort(RateDescending, all)[..FeaturedLength(|all|)]
  }

  /**
   * The featured selection: sorts the fetched array in place by descending rate,
   * then takes a slice of its first eight entries.
   */
  method SelectFeatured(all: array<Product>) returns (featured: seq<Product>)
    modifies all
    ensures all[..] == InsertionSort(RateDescending, old(all[..]))
    ensures featured == Featured(old(all[..]))
  {
    SortInPlace(RateDescending, all);
    featured := all[..FeaturedLength(all.Length)];
  }

  /** The featured list is in non-increasing rate, and drawn from the catalog. */
  lemma FeaturedSortedSubset(all: seq<Product>)
    ensures forall i, j :: 0 <= i < j < |Featured(all)| ==> Featured(all)[i].rating.rate >= Featured(all)[j].rating.rate
    ensures multiset(Featured(all)) <= multiset(all)
  {
    var sorted := InsertionSort(RateDescending, all);
    InsertionSortCorrect(RateDescending, all);
    assert sorted == Featured(all) + sorted[FeaturedLength(|all|)..];
  }

  /** Every catalog entry left out of the featured list rates no higher than the last one shown. */
  lemma FeaturedAreTopRated(all: seq<Product>)
    ensures forall p :: p in multiset(all) - multiset(Featured(all)) ==>
      p.rating.rate <= Featured(all)[|Featured(all)| - 1].rating.rate
  {
    var sorted := InsertionSort(RateDescending, all);
    InsertionSortCorrect(RateDescending, all);
    var n := FeaturedLength(|all|);
    var shown, rest := sorted[..n], sorted[n..];
    assert sorted == shown + rest;
    assert multiset(all) == multiset(shown) + multiset(rest);
    forall p | p in multiset(all) - multiset(shown)
      ensures p.rating.rate <= shown[n - 1].rating.rate
    {
      assert p in multiset(rest);
      var k :| 0 <= k < |rest| && rest[k] == p;
      assert sorted[n + k] == p && sorted[n - 1] == shown[n - 1];
    }
  }

  /** The tile caption: the category name with every apostrophe deleted. */
  function CategoryText(category: string): (r: string)
    ensures '\'' !in r
    ensures '\'' !in category ==> r == category
  {
    RemoveChar(category, '\'')
  }

  /**
   * A stock photo: its number and the name its file carries before the number. Every
   * entry of `categoryImages` is the address of such a photo, in one fixed format.
   */
  datatype Photo = Photo(id: nat, slug: string)

  /** The `categoryImages` object literal: the photo under each of its twelve keys, undefined for any other string. */
  function ImageFor(key: string): (r: Option<Photo>)
    ensures r == Some(ElectronicsImage) <==> key == "electronics"
  {
    match key
    case "electronics" => Some(Photo(356056, "pexels-photo"))
    case "home & living" => Some(Photo(1571460, "pexels-photo"))
    case "beauty & personal care" => Some(Photo(3373716, "pexels-photo"))
    case "food & beverages" => Some(Photo(1640774, "pexels-photo"))
    case "women's clothing" => Some(Photo(934070, "pexels-photo"))
    case "men's clothing" => Some(Photo(297933, "pexels-photo"))
    case "jewelry & accessories" => Some(Photo(1927259, "pexels-photo"))
    case "sports & outdoors" => Some(Photo(3775566, "pexels-photo"))
    case "books & stationery" => Some(Photo(159866, "books-book-pages-read-literature"))
    case "toys & games" => Some(Photo(163696, "toy-car-toy-box-mini"))
    case "health & wellness" => Some(Photo(4047186, "pexels-photo"))
    case "pet supplies" => Some(Photo(1404819, "pexels-photo"))
    case _ => None
  }

  /** The fallback, the photo under the "electronics" key. */
  const ElectronicsImage := Photo(356056, "pexels-photo")

  /** The tile photo as the page looks it up: by the caption, falling back to the electronics photo. */
  function CategoryImageAsWritten(category: string): (r: Photo)
    ensures r == ElectronicsImage <==> CategoryText(category) == "electronics" || ImageFor(CategoryText(category)).None?
  {
    ImageFor(CategoryText(category)).GetOr(ElectronicsImage)
  }

  /** The tile photo looked up by the category name itself, falling back to the electronics photo. */
  function CategoryImage(category: string): (r: Photo)
    ensures r == ElectronicsImage <==> category == "electronics" || ImageFor(category).None?
  {
    ImageFor(category).GetOr(ElectronicsImage)
  }

  /** The caption of a name `s` with one apostrophe, between `a` and `b`, is `t`, which is `a + b`. */
  lemma {:induction false} CaptionAroundApostrophe(a: string, b: string, s: string, t: string)
    requires '\'' !in a && '\'' !in b && s == a + "'" + b && t == a + b
    ensures CategoryText(s) == t
  {
    RemoveCharAppend(a + "'", b, '\'');
    RemoveCharAppend(a, "'", '\'');
  }

  /** The captions of the two clothing categories are not keys of the table. */
  lemma StrippedClothingNamesAreNotKeys()
    ensures ImageFor("womens clothing") == None
    ensures ImageFor("mens clothing") == None
  {
  }

  /** Looked up by their own names, the two clothing categories have photos other than the electronics one. */
  lemma ClothingCategoriesHaveOwnPhotos()
    ensures CategoryImage("women's clothing") == Photo(934070, "pexels-photo") != ElectronicsImage
    ensures CategoryImage("men's clothing") == Photo(297933, "pexels-photo") != ElectronicsImage
  {
  }

  /** A tile whose caption is not a key shows the electronics image. */
  lemma UnkeyedCaptionFallsBack(c: string, t: string)
    requires CategoryText(c) == t && ImageFor(t) == None
    ensures CategoryImageAsWritten(c) == ElectronicsImage
  {
  }

  /**
   * The women's clothing tile: its caption misses every key, so it shows the electronics
   * photo.
   */
  lemma WomensTileShowsElectronics(c: string)
    requires c == "women's clothing"
    ensures CategoryText(c) == "womens clothing" && ImageFor(CategoryText(c)) == None
    ensures CategoryImageAsWritten(c) == ElectronicsImage
  {
    CaptionAroundApostrophe("women", "s clothing", c, "womens clothing");
    StrippedClothingNamesAreNotKeys();
    UnkeyedCaptionFallsBack(c, "womens clothing");
  }

  /**
   * The men's clothing tile: its caption misses every key, so it shows the electronics
   * photo.
   */
  lemma MensTileShowsElectronics(c: string)
    requires c == "men's clothing"
    ensures CategoryText(c) == "mens clothing" && ImageFor(CategoryText(c)) == None
    ensures CategoryImageAsWritten(c) == ElectronicsImage
  {
    CaptionAroundApostrophe("men", "s clothing", c, "mens clothing");
    StrippedClothingNamesAreNotKeys();
    UnkeyedCaptionFallsBack(c, "mens clothing");
  }

  /**
   * Looked up by its own name, every listed category is a key of the table, and
   * only electronics shows the electronics photo.
   */
  lemma EveryCategoryHasImage(i: nat)
    requires i < |GetCategories()|
    ensures ImageFor(GetCategories()[i]).Some?
    ensures i > 0 ==> CategoryImage(GetCategories()[i]) != ElectronicsImage
  {
    var c := GetCategories()[i];
    if i == 0 {
      assert c == "electronics";
    } else if i == 1 {
      assert c == "home & living";
    } else if i == 2 {
      assert c == "beauty & personal care";
    } else if i == 3 {
      assert c == "food & beverages";
    } else if i == 4 {
      assert c == "women's clothing";
    } else if i == 5 {
      assert c == "men's clothing";
    } else if i == 6 {
      assert c == "jewelry & accessories";
    } else if i == 7 {
      assert c == "sports & outdoors";
    } else if i == 8 {
      assert c == "books & stationery";
    } else if i == 9 {
      assert c == "toys & games";
    } else if i == 10 {
      assert c == "health & wellness";
    } else if i == 11 {
      assert c == "pet supplies";
    }
  }

  /** For a name without an apostrophe the two lookups agree. */
  lemma LookupsAgreeWithoutApostrophe(c: string)
    requires '\'' !in c
    ensures CategoryImageAsWritten(c) == CategoryImage(c)
  {
    assert CategoryText(c) == c;
  }
}
