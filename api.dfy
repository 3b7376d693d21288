/**
 * The catalog aggregator: three upstream product sources (FakeStore, called A;
 * DummyJSON, B; Platzi, C) merged into one catalog with offset identifiers and
 * normalized categories. The network is abstract: each request is an input that
 * is either the decoded response or a failure.
 */
module Api {
  import opened Wrappers
  import opened Types
  import opened Text
  import opened Lists
  import opened Categories

  /** A rejected `fetch` or a response that could not be decoded or had the wrong shape. */
  datatype FetchError = FetchFailed

  /** A DummyJSON product as the upstream returns it. */
  datatype DummyRecord = DummyRecord(
    id: int, title: string, price: real, description: string,
    category: string, thumbnail: string, rating: real, stock: int)

  /** A Platzi product: its category is an object, its images a list. */
  datatype PlatziCategory = PlatziCategory(name: string)
  datatype PlatziRecord = PlatziRecord(
    id: int, title: string, price: real, description: string,
    category: PlatziCategory, images: seq<string>)

  const DummyOffset := 1000
  const PlatziOffset := 2000

  /** The DummyJSON mapper of the listing and of the single-product lookup. */
  function FromDummy(d: DummyRecord): (p: Product)
    ensures p.id == d.id + DummyOffset
    ensures p.category == NormalizeCategory(d.category)
    ensures p.image == d.thumbnail && p.rating == Rating(d.rating, d.stock)
    ensures p.title == d.title && p.price == d.price && p.description == d.description
  {
    Product(d.id + DummyOffset, d.title, d.price, d.description,
            NormalizeCategory(d.category), d.thumbnail, Rating(d.rating, d.stock))
  }

  /** `images[0]`, or "" for an empty image list. */
  function FirstImage(images: seq<string>): string {
    if |images| > 0 then images[0] else ""
  }

  /** The Platzi mapper: the first image, the category object's name, a fixed placeholder rating. */
  function FromPlatzi(c: PlatziRecord): (p: Product)
    ensures p.id == c.id + PlatziOffset
    ensures p.category == NormalizeCategory(c.category.name)
    ensures p.image == FirstImage(c.images) && p.rating == Rating(4.5, 100)
    ensures p.title == c.title && p.price == c.price && p.description == c.description
  {
    Product(c.id + PlatziOffset, c.title, c.price, c.description,
            NormalizeCategory(c.category.name), FirstImage(c.images), Rating(4.5, 100))
  }

  /** `data.products.map(...)` for the DummyJSON listing. */
  function FromDummyAll(ds: seq<DummyRecord>): (r: seq<Product>)
    ensures |r| == |ds| && forall k :: 0 <= k < |ds| ==> r[k] == FromDummy(ds[k])
  {
    seq(|ds|, k requires 0 <= k < |ds| => FromDummy(ds[k]))
  }

  /** `data.map(...)` for the Platzi listing. */
  function FromPlatziAll(cs: seq<PlatziRecord>): (r: seq<Product>)
    ensures |r| == |cs| && forall k :: 0 <= k < |cs| ==> r[k] == FromPlatzi(cs[k])
  {
    seq(|cs|, k requires 0 <= k < |cs| => FromPlatzi(cs[k]))
  }

  /** The catalog of a successful three-way join: A as received, then mapped B, then mapped C. */
  function Merged(a: seq<Product>, b: seq<DummyRecord>, c: seq<PlatziRecord>): (r: seq<Product>)
    ensures |r| == |a| + |b| + |c|
    ensures r[..|a|] == a
    ensures forall k :: 0 <= k < |b| ==> r[|a| + k] == FromDummy(b[k])
    ensures forall k :: 0 <= k < |c| ==> r[|a| + |b| + k] == FromPlatzi(c[k])
  {
    a + FromDummyAll(b) + FromPlatziAll(c)
  }

  /**
   * `getProducts`: pushes the three listings in source order when all three
   * requests succeed; otherwise the outcome of the single un-normalized request
   * to A (`fallback`), whose failure propagates.
   */
  method GetProducts(
    a: Result<seq<Product>, FetchError>,
    b: Result<seq<DummyRecord>, FetchError>,
    c: Result<seq<PlatziRecord>, FetchError>,
    fallback: Result<seq<Product>, FetchError>)
    returns (r: Result<seq<Product>, FetchError>)
    ensures a.Success? && b.Success? && c.Success? ==> r == Success(Merged(a.value, b.value, c.value))
    ensures !(a.Success? && b.Success? && c.Success?) ==> r == fallback
  {
    if a.Failure? || b.Failure? || c.Failure? {
      return fallback;
    }
    var normalized := a.value + FromDummyAll(b.value) + FromPlatziAll(c.value);
    return Success(normalized);
  }

  /** The source an identifier belongs to, read off its range. */
  datatype Source = SourceA | SourceB | SourceC

  function SourceOf(id: int): Source {
    if id < DummyOffset then SourceA else if id < PlatziOffset then SourceB else SourceC
  }

  /** Native identifiers of A and B below 1000, of C non-negative: what keeps the ranges apart. */
  predicate NativeIdsInRange(a: seq<Product>, b: seq<DummyRecord>, c: seq<PlatziRecord>) {
    && (forall p :: p in a ==> 0 <= p.id < DummyOffset)
    && (forall d :: d in b ==> 0 <= d.id < DummyOffset)
    && (forall q :: q in c ==> 0 <= q.id)
  }

  /** Under in-range native ids, an entry's identifier names the source it came from. */
  lemma MergedIdPartition(a: seq<Product>, b: seq<DummyRecord>, c: seq<PlatziRecord>, k: nat)
    requires NativeIdsInRange(a, b, c)
    requires k < |a| + |b| + |c|
    ensures SourceOf(Merged(a, b, c)[k].id) ==
      if k < |a| then SourceA else if k < |a| + |b| then SourceB else SourceC
  {
    var m := Merged(a, b, c);
    if k < |a| {
      assert m[k] == m[..|a|][k] == a[k];
    } else if k < |a| + |b| {
      assert m[k] == FromDummy(b[k - |a|]);
    } else {
      assert m[k] == FromPlatzi(c[k - |a| - |b|]);
    }
  }

  predicate UniqueIds(s: seq<Product>) {
    forall i, j :: 0 <= i < j < |s| ==> s[i].id != s[j].id
  }

  /** Distinct native identifiers in each source give distinct catalog identifiers. */
  lemma MergedIdsUnique(a: seq<Product>, b: seq<DummyRecord>, c: seq<PlatziRecord>)
    requires NativeIdsInRange(a, b, c)
    requires UniqueIds(a)
    requires forall i, j :: 0 <= i < j < |b| ==> b[i].id != b[j].id
    requires forall i, j :: 0 <= i < j < |c| ==> c[i].id != c[j].id
    ensures UniqueIds(Merged(a, b, c))
  {
    var m := Merged(a, b, c);
    forall i, j | 0 <= i < j < |m| ensures m[i].id != m[j].id {
      MergedIdPartition(a, b, c, i);
      MergedIdPartition(a, b, c, j);
      if j < |a| {
        assert m[i] == a[i] && m[j] == a[j];
      } else if i >= |a| && j < |a| + |b| {
        assert m[i] == FromDummy(b[i - |a|]) && m[j] == FromDummy(b[j - |a|]);
      } else if i >= |a| + |b| {
        assert m[i] == FromPlatzi(c[i - |a| - |b|]) && m[j] == FromPlatzi(c[j - |a| - |b|]);
      }
    }
  }

  /** Entries from B and C carry categories that normalization no longer changes. */
  lemma MergedCategoriesNormalized(a: seq<Product>, b: seq<DummyRecord>, c: seq<PlatziRecord>, k: nat)
    requires |a| <= k < |a| + |b| + |c|
    ensures NormalizeCategory(Merged(a, b, c)[k].category) == Merged(a, b, c)[k].category
  {
    if k < |a| + |b| {
      NormalizeIdempotent(b[k - |a|].category);
    } else {
      NormalizeIdempotent(c[k - |a| - |b|].category.name);
    }
  }

  /** `id < k` on the parsed route id; every comparison with `NaN` is false. */
  predicate Below(id: ParsedInt, k: int) {
    id.Int? && id.n < k
  }

  /** `id - k` on the parsed route id; `NaN` minus a number is `NaN`. */
  function Minus(id: ParsedInt, k: int): (r: ParsedInt)
    ensures id.NaN? <==> r.NaN?
    ensures id.Int? ==> r == Int(id.n - k)
  {
    match id
    case Int(n) => Int(n - k)
    case NaN => NaN
  }

  /**
   * `getProduct`'s dispatch on `parseInt` of the route: the source by range, with
   * its offset taken off the queried id. An id that is not a number passes neither
   * range test and is sent to C as `NaN`.
   */
  function ProductById(
    id: ParsedInt,
    fetchA: int -> Result<Product, FetchError>,
    fetchB: int -> Result<DummyRecord, FetchError>,
    fetchC: ParsedInt -> Result<PlatziRecord, FetchError>): Option<Product>
  {
    if Below(id, DummyOffset) then fetchA(id.n).ToOption()
    else if Below(id, PlatziOffset) then
      (match fetchB(id.n - DummyOffset) case Success(d) => Some(FromDummy(d)) case Failure(_) => None)
    else
      (match fetchC(Minus(id, PlatziOffset)) case Success(q) => Some(FromPlatzi(q)) case Failure(_) => None)
  }

  /**
   * `getProduct`: queries exactly one source and maps its record with the same
   * mapper as the listing; any failure is `null`.
   */
  method GetProduct(
    id: ParsedInt,
    fetchA: int -> Result<Product, FetchError>,
    fetchB: int -> Result<DummyRecord, FetchError>,
    fetchC: ParsedInt -> Result<PlatziRecord, FetchError>)
    returns (r: Option<Product>)
    ensures r == ProductById(id, fetchA, fetchB, fetchC)
    ensures Below(id, DummyOffset) ==> (r.Some? <==> fetchA(id.n).Success?)
    ensures !Below(id, DummyOffset) && Below(id, PlatziOffset) ==> (r.Some? <==> fetchB(id.n - DummyOffset).Success?)
    ensures !Below(id, PlatziOffset) ==> (r.Some? <==> fetchC(Minus(id, PlatziOffset)).Success?)
  {
    var response: Result<Product, FetchError>;
    var product: Product;
    if Below(id, DummyOffset) {
      response := fetchA(id.n);
      if response.Failure? { return None; }
      product := response.value;
    } else if Below(id, PlatziOffset) {
      var data := fetchB(id.n - DummyOffset);
      if data.Failure? { return None; }
      product := FromDummy(data.value);
    } else {
      var data := fetchC(Minus(id, PlatziOffset));
      if data.Failure? { return None; }
      product := FromPlatzi(data.value);
    }
    return Some(product);
  }

  /** A route id that is not a number reaches C as `/products/NaN`, and only C's answer decides the result. */
  lemma NaNIdQueriesC(
    fetchA: int -> Result<Product, FetchError>,
    fetchB: int -> Result<DummyRecord, FetchError>,
    fetchC: ParsedInt -> Result<PlatziRecord, FetchError>)
    ensures ProductById(NaN, fetchA, fetchB, fetchC).Some? <==> fetchC(NaN).Success?
    ensures fetchC(NaN).Success? ==> ProductById(NaN, fetchA, fetchB, fetchC) == Some(FromPlatzi(fetchC(NaN).value))
  {
    assert Minus(NaN, PlatziOffset) == NaN;
  }

  /** When the upstream record carries the native id that was asked for, the offset round-trips. */
  lemma ProductByIdKeepsId(
    id: int,
    fetchA: int -> Result<Product, FetchError>,
    fetchB: int -> Result<DummyRecord, FetchError>,
    fetchC: ParsedInt -> Result<PlatziRecord, FetchError>)
    requires id < DummyOffset && fetchA(id).Success? ==> fetchA(id).value.id == id
    requires DummyOffset <= id < PlatziOffset && fetchB(id - DummyOffset).Success? ==>
      fetchB(id - DummyOffset).value.id == id - DummyOffset
    requires PlatziOffset <= id && fetchC(Int(id - PlatziOffset)).Success? ==>
      fetchC(Int(id - PlatziOffset)).value.id == id - PlatziOffset
    ensures ProductById(Int(id), fetchA, fetchB, fetchC).Some? ==> ProductById(Int(id), fetchA, fetchB, fetchC).value.id == id
  {
  }

  /** An A entry whose item endpoint serves it is found under its own id. */
  lemma LookupA(
    p: Product,
    fetchA: int -> Result<Product, FetchError>,
    fetchB: int -> Result<DummyRecord, FetchError>,
    fetchC: ParsedInt -> Result<PlatziRecord, FetchError>)
    requires p.id < DummyOffset && fetchA(p.id) == Success(p)
    ensures ProductById(Int(p.id), fetchA, fetchB, fetchC) == Some(p)
  {
  }

  /** A mapped B entry is found under its offset id when the item endpoint serves its record. */
  lemma LookupB(
    d: DummyRecord,
    fetchA: int -> Result<Product, FetchError>,
    fetchB: int -> Result<DummyRecord, FetchError>,
    fetchC: ParsedInt -> Result<PlatziRecord, FetchError>)
    requires 0 <= d.id < DummyOffset && fetchB(d.id) == Success(d)
    ensures ProductById(Int(FromDummy(d).id), fetchA, fetchB, fetchC) == Some(FromDummy(d))
  {
    assert FromDummy(d).id - DummyOffset == d.id;
  }

  /** A mapped C entry is found under its offset id when the item endpoint serves its record. */
  lemma LookupC(
    q: PlatziRecord,
    fetchA: int -> Result<Product, FetchError>,
    fetchB: int -> Result<DummyRecord, FetchError>,
    fetchC: ParsedInt -> Result<PlatziRecord, FetchError>)
    requires 0 <= q.id && fetchC(Int(q.id)) == Success(q)
    ensures ProductById(Int(FromPlatzi(q).id), fetchA, fetchB, fetchC) == Some(FromPlatzi(q))
  {
    assert Minus(Int(FromPlatzi(q).id), PlatziOffset) == Int(q.id);
  }

  /**
   * Looking up any catalog entry by its id returns that entry, provided the item
   * endpoints serve the same records as the listings and native ids are in range.
   */
  lemma CatalogLookupRoundTrip(
    a: seq<Product>, b: seq<DummyRecord>, c: seq<PlatziRecord>,
    fetchA: int -> Result<Product, FetchError>,
    fetchB: int -> Result<DummyRecord, FetchError>,
    fetchC: ParsedInt -> Result<PlatziRecord, FetchError>,
    k: nat)
    requires NativeIdsInRange(a, b, c)
    requires forall p :: p in a ==> fetchA(p.id) == Success(p)
    requires forall d :: d in b ==> fetchB(d.id) == Success(d)
    requires forall q :: q in c ==> fetchC(Int(q.id)) == Success(q)
    requires k < |a| + |b| + |c|
    ensures ProductById(Int(Merged(a, b, c)[k].id), fetchA, fetchB, fetchC) == Some(Merged(a, b, c)[k])
  {
    var m := Merged(a, b, c);
    if k < |a| {
      assert m[k] == m[..|a|][k] == a[k];
      assert a[k] in a;
      LookupA(a[k], fetchA, fetchB, fetchC);
    } else if k < |a| + |b| {
      var d := b[k - |a|];
      assert m[k] == FromDummy(d) && d in b;
      LookupB(d, fetchA, fetchB, fetchC);
    } else {
      var q := c[k - |a| - |b|];
      assert m[k] == FromPlatzi(q) && q in c;
      LookupC(q, fetchA, fetchB, fetchC);
    }
  }

  /** The category predicate of `getProductsByCategory`. */
  predicate InCategory(p: Product, category: string) {
    LowerStr(p.category) == LowerStr(category)
  }

  /** `getProductsByCategory`: the catalog filtered case-insensitively, `[]` when the catalog failed. */
  function GetProductsByCategory(category: string, catalog: Result<seq<Product>, FetchError>): (r: seq<Product>)
    ensures catalog.Failure? ==> r == []
    ensures forall p :: p in r ==> InCategory(p, category)
    ensures catalog.Success? ==> forall p :: p in catalog.value && InCategory(p, category) ==> p in r
    ensures catalog.Success? ==> IsSubsequence(r, catalog.value)
    ensures catalog.Success? ==>
      forall p :: multiset(r)[p] == if InCategory(p, category) then multiset(catalog.value)[p] else 0
  {
    match catalog
    case Failure(_) => []
    case Success(all) =>
      FilterIsSubsequence(all, p => InCategory(p, category));
      FilterMultisetAll(all, p => InCategory(p, category));
      Filter(all, p => InCategory(p, category))
  }

  /** Category matching ignores the case of the requested name. */
  lemma ByCategoryIgnoresCase(c1: string, c2: string, catalog: Result<seq<Product>, FetchError>)
    requires LowerStr(c1) == LowerStr(c2)
    ensures GetProductsByCategory(c1, catalog) == GetProductsByCategory(c2, catalog)
  {
    if catalog.Success? {
      FilterCongruent(catalog.value, p => InCategory(p, c1), p => InCategory(p, c2));
    }
  }
}
