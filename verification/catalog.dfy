/**
 * The catalogue side of the product cache (src/lib/products-cache.ts):
 * normalising a raw catalogue record into a product, free-text search with
 * a two-bucket relevance order, and exact barcode lookup.
 */
module Catalog {
  import opened Types
  import opened Strings

  /** One entry of a raw record's image list. */
  datatype Image = Image(imageUrl: Option<string>)

  /** A record as the catalogue API delivers it; every optional field may be
      missing. */
  datatype RawProduct = RawProduct(
    productId: string,
    productNumber: string,
    productNameBold: string,
    productNameThin: Option<string>,
    producerName: Option<string>,
    isOrganic: Option<bool>,
    bottleText: Option<string>,
    volume: Option<real>,
    price: Option<real>,
    country: Option<string>,
    originLevel1: Option<string>,
    categoryLevel1: Option<string>,
    categoryLevel2: Option<string>,
    alcoholPercentage: Option<real>,
    packagingLevel1: Option<string>,
    images: Option<seq<Image>>)

  /** A normalised product together with the fields only search needs. */
  datatype CachedProduct = CachedProduct(item: Product, productNumber: string, searchText: string)

  /** An optional string is truthy when it is present and not empty. */
  predicate Truthy(s: Option<string>) {
    s.Some? && s.value != ""
  }

  /** `a || b` on optional strings. */
  function Or(a: Option<string>, b: Option<string>): Option<string> {
    if Truthy(a) then a else b
  }

  /** `s || ''` */
  function OrEmpty(s: Option<string>): string {
    if Truthy(s) then s.value else ""
  }

  /** `x || fallback` on an optional number: absent and zero are falsy. */
  function NumberOr(x: Option<real>, fallback: real): real {
    if x.Some? && x.value != 0.0 then x.value else fallback
  }

  // ---------------------------------------------------------------------
  // Packaging
  // ---------------------------------------------------------------------

  /** Some keyword of `keywords` occurs in `text`. */
  predicate MentionsAny(text: string, keywords: seq<string>) {
    exists k :: 0 <= k < |keywords| && Contains(text, keywords[k])
  }

  const BoxWords: seq<string> := ["box", "bag-in-box", "bib"]
  const CanWords: seq<string> := ["burk", "can", "pantburk"]
  const PetWords: seq<string> := ["pet", "plast"]
  const CartonWords: seq<string> := ["tetra", "papp"]
  const LightGlassWords: seq<string> := ["lättglas", "lättvikt"]

  /** The lower-cased text the packaging rules look at: the packaging field
      if non-empty, else the bottle text, else nothing. */
  function PackagingText(packagingLevel1: Option<string>, bottleText: Option<string>): string {
    Lower(OrEmpty(Or(packagingLevel1, bottleText)))
  }

  /** `mapPackaging`: the first rule with a keyword in the text wins, and
      heavy glass is what is left. */
  function MapPackaging(packagingLevel1: Option<string>, bottleText: Option<string>): (t: PackagingType)
    ensures var x := PackagingText(packagingLevel1, bottleText);
      && (t == BagInBox <==> MentionsAny(x, BoxWords))
      && (t == AluminumCan <==> !MentionsAny(x, BoxWords) && MentionsAny(x, CanWords))
      && (t == Pet <==> !MentionsAny(x, BoxWords) && !MentionsAny(x, CanWords) && MentionsAny(x, PetWords))
      && (t == Tetra <==> !MentionsAny(x, BoxWords) && !MentionsAny(x, CanWords) && !MentionsAny(x, PetWords)
                          && MentionsAny(x, CartonWords))
      && (t == GlassLight <==> !MentionsAny(x, BoxWords) && !MentionsAny(x, CanWords) && !MentionsAny(x, PetWords)
                               && !MentionsAny(x, CartonWords) && MentionsAny(x, LightGlassWords))
      && (t == GlassHeavy <==> !MentionsAny(x, BoxWords) && !MentionsAny(x, CanWords) && !MentionsAny(x, PetWords)
                               && !MentionsAny(x, CartonWords) && !MentionsAny(x, LightGlassWords))
  {
    var x := PackagingText(packagingLevel1, bottleText);
    if MentionsAny(x, BoxWords) then BagInBox
    else if MentionsAny(x, CanWords) then AluminumCan
    else if MentionsAny(x, PetWords) then Pet
    else if MentionsAny(x, CartonWords) then Tetra
    else if MentionsAny(x, LightGlassWords) then GlassLight
    else GlassHeavy
  }

  /** The longer keywords of the box and can rules contain a shorter one of
      the same rule, so only "box", "bib", "burk" and "can" ever decide. */
  lemma RedundantKeywords(x: string)
    ensures MentionsAny(x, BoxWords) <==> Contains(x, "box") || Contains(x, "bib")
    ensures MentionsAny(x, CanWords) <==> Contains(x, "burk") || Contains(x, "can")
  {
    assert BoxWords[0] == "box" && BoxWords[2] == "bib";
    assert CanWords[0] == "burk" && CanWords[1] == "can";
    if Contains(x, "bag-in-box") {
      assert OccursAt("bag-in-box", "box", 7);
      ContainsTransitive(x, "bag-in-box", "box");
    }
    if Contains(x, "pantburk") {
      assert OccursAt("pantburk", "burk", 4);
      ContainsTransitive(x, "pantburk", "burk");
    }
  }

  /** A non-empty packaging field decides alone; the bottle text is then ignored. */
  lemma PackagingFieldWins(packagingLevel1: string, bottleText: Option<string>)
    requires packagingLevel1 != ""
    ensures MapPackaging(Some(packagingLevel1), bottleText) == MapPackaging(Some(packagingLevel1), None)
  {
  }

  /** With neither field present there is nothing to match, so the type falls back to heavy glass. */
  lemma NoPackagingTextIsHeavyGlass(packagingLevel1: Option<string>, bottleText: Option<string>)
    requires !Truthy(packagingLevel1) && !Truthy(bottleText)
    ensures MapPackaging(packagingLevel1, bottleText) == GlassHeavy
  {
    assert PackagingText(packagingLevel1, bottleText) == "";
  }

  /** The rules ignore letter case. */
  lemma MapPackagingIgnoresCase(text: string)
    ensures MapPackaging(Some(Lower(text)), None) == MapPackaging(Some(text), None)
  {
    LowerIdempotent(text);
  }

  /** A mention of a box beats every other keyword. */
  lemma BoxBeatsEverything(text: string)
    requires Contains(Lower(text), "box")
    ensures MapPackaging(Some(text), None) == BagInBox
  {
    assert BoxWords[0] == "box";
  }

  // ---------------------------------------------------------------------
  // Normalisation
  // ---------------------------------------------------------------------

  /** `productNameBold productNameThin`, or the bold name alone. */
  function DisplayName(raw: RawProduct): (name: string)
    ensures Truthy(raw.productNameThin) ==> name == raw.productNameBold + " " + raw.productNameThin.value
    ensures !Truthy(raw.productNameThin) ==> name == raw.productNameBold
    ensures StartsWith(name, raw.productNameBold)
  {
    if Truthy(raw.productNameThin) then raw.productNameBold + " " + raw.productNameThin.value
    else raw.productNameBold
  }

  /** The finer category if truthy, else the coarser one, else none. */
  function CategoryOf(raw: RawProduct): (category: Option<string>)
    ensures Truthy(raw.categoryLevel2) ==> category == raw.categoryLevel2
    ensures !Truthy(raw.categoryLevel2) && Truthy(raw.categoryLevel1) ==> category == raw.categoryLevel1
    ensures category.None? <==> !Truthy(raw.categoryLevel2) && !Truthy(raw.categoryLevel1)
    ensures category.Some? ==> category.value != ""
  {
    if Truthy(raw.categoryLevel2) then raw.categoryLevel2
    else if Truthy(raw.categoryLevel1) then raw.categoryLevel1
    else None
  }

  /** The country, else the origin region, else the sentinel "Okänt". */
  function OriginOf(raw: RawProduct): (origin: string)
    ensures Truthy(raw.country) ==> origin == raw.country.value
    ensures !Truthy(raw.country) && Truthy(raw.originLevel1) ==> origin == raw.originLevel1.value
    ensures !Truthy(raw.country) && !Truthy(raw.originLevel1) ==> origin == "Okänt"
    ensures origin != ""
  {
    if Truthy(raw.country) then raw.country.value
    else if Truthy(raw.originLevel1) then raw.originLevel1.value
    else "Okänt"
  }

  /** The first image with a truthy URL, in its 200-pixel WebP variant, or
      the placeholder bottle. */
  function ImageUrlOf(raw: RawProduct): (url: string)
    ensures raw.images.Some? && |raw.images.value| > 0 && Truthy(raw.images.value[0].imageUrl) ==>
      url == raw.images.value[0].imageUrl.value + "_200.webp"
    ensures raw.images.None? || |raw.images.value| == 0 || !Truthy(raw.images.value[0].imageUrl) ==>
      url == "/placeholder-bottle.svg"
  {
    if raw.images.Some? && |raw.images.value| > 0 && Truthy(raw.images.value[0].imageUrl)
    then raw.images.value[0].imageUrl.value + "_200.webp"
    else "/placeholder-bottle.svg"
  }

  /** The lower-cased text free-text search looks in. */
  function SearchTextOf(name: string, producer: Option<string>, category: Option<string>, origin: string, productNumber: string): (text: string)
    ensures |text| == |name| + |OrEmpty(producer)| + |OrEmpty(category)| + |origin| + |productNumber| + 4
    ensures forall i :: 0 <= i < |text| ==> !IsUpper(text[i])
    ensures text == Lower(name) + " " + Lower(OrEmpty(producer)) + " " + Lower(OrEmpty(category)) + " "
                    + Lower(origin) + " " + Lower(productNumber)
    ensures text[..|name|] == Lower(name)
    ensures text[|text| - |productNumber|..] == Lower(productNumber)
  {
    LowerJoin(name, OrEmpty(producer), OrEmpty(category), origin, productNumber);
    Lower(name + " " + OrEmpty(producer) + " " + OrEmpty(category) + " " + origin + " " + productNumber)
  }

  /** `mapProduct`: a total mapping with a default for every missing field. */
  function MapProduct(raw: RawProduct): (c: CachedProduct)
    ensures c.productNumber == raw.productNumber
    ensures c.item.id == (if raw.productId != "" then raw.productId else raw.productNumber)
    ensures c.item.originCountry != ""
    ensures c.item.productionMethod != Biodynamic
    ensures c.item.productionMethod == Organic <==> raw.isOrganic == Some(true)
    ensures c.item.volumeMl == (if raw.volume.Some? && raw.volume.value != 0.0 then raw.volume.value else 750.0)
    ensures c.item.price == (if raw.price.Some? then raw.price.value else 0.0)
    ensures c.item.category.Some? ==> c.item.category.value != ""
    ensures c.item.producer == raw.producerName && c.item.alcoholPercentage == raw.alcoholPercentage
    ensures c.item.name == (if Truthy(raw.productNameThin) then raw.productNameBold + " " + raw.productNameThin.value else raw.productNameBold)
    ensures c.item.originCountry == (if Truthy(raw.country) then raw.country.value
                                     else if Truthy(raw.originLevel1) then raw.originLevel1.value else "Okänt")
    ensures c.item.category == (if Truthy(raw.categoryLevel2) then raw.categoryLevel2
                                else if Truthy(raw.categoryLevel1) then raw.categoryLevel1 else None)
    ensures c.item.imageUrl == (if raw.images.Some? && |raw.images.value| > 0 && Truthy(raw.images.value[0].imageUrl)
                                then raw.images.value[0].imageUrl.value + "_200.webp" else "/placeholder-bottle.svg")
    ensures c.item.packagingType == MapPackaging(raw.packagingLevel1, raw.bottleText)
    ensures c.searchText == Lower(c.item.name + " " + OrEmpty(raw.producerName) + " " + OrEmpty(c.item.category) + " "
                                  + c.item.originCountry + " " + raw.productNumber)
  {
    var name := DisplayName(raw);
    var category := CategoryOf(raw);
    var origin := OriginOf(raw);
    var item := Product(
      if raw.productId != "" then raw.productId else raw.productNumber,
      name,
      ImageUrlOf(raw),
      MapPackaging(raw.packagingLevel1, raw.bottleText),
      origin,
      if raw.isOrganic == Some(true) then Organic else Conventional,
      NumberOr(raw.volume, 750.0),
      NumberOr(raw.price, 0.0),
      category,
      raw.producerName,
      raw.alcoholPercentage);
    var text := SearchTextOf(name, raw.producerName, category, origin, raw.productNumber);
    assert text == Lower(name + " " + OrEmpty(raw.producerName) + " " + OrEmpty(category) + " " + origin + " " + raw.productNumber);
    CachedProduct(item, raw.productNumber, text)
  }

  /** The lower-cased name starts the search text. */
  lemma SearchTextStartsWithName(raw: RawProduct)
    ensures StartsWith(MapProduct(raw).searchText, Lower(MapProduct(raw).item.name))
  {
    var name := DisplayName(raw);
    var rest := " " + OrEmpty(raw.producerName) + " " + OrEmpty(CategoryOf(raw)) + " " + OriginOf(raw) + " " + raw.productNumber;
    assert name + " " + OrEmpty(raw.producerName) + " " + OrEmpty(CategoryOf(raw)) + " " + OriginOf(raw) + " " + raw.productNumber
        == name + rest;
    LowerAppend(name, rest);
  }

  /** The lower-cased product number ends the search text. */
  lemma SearchTextEndsWithNumber(raw: RawProduct)
    ensures var c := MapProduct(raw);
      |Lower(raw.productNumber)| <= |c.searchText|
      && c.searchText[|c.searchText| - |raw.productNumber|..] == Lower(raw.productNumber)
  {
    var c := MapProduct(raw);
    var front := DisplayName(raw) + " " + OrEmpty(raw.producerName) + " " + OrEmpty(CategoryOf(raw)) + " " + OriginOf(raw) + " ";
    assert front + raw.productNumber
        == DisplayName(raw) + " " + OrEmpty(raw.producerName) + " " + OrEmpty(CategoryOf(raw)) + " " + OriginOf(raw) + " " + raw.productNumber;
    LowerAppend(front, raw.productNumber);
    assert c.searchText == Lower(front) + Lower(raw.productNumber);
  }

  /** A record with nothing but its identifiers and name gets every default:
      heavy glass, conventional, 75 cl, price 0, origin "Okänt", no category
      and the placeholder image. */
  lemma BareRecordDefaults(raw: RawProduct)
    requires raw.productNameThin.None? && raw.isOrganic.None? && raw.volume.None? && raw.price.None?
    requires raw.country.None? && raw.originLevel1.None? && raw.categoryLevel1.None? && raw.categoryLevel2.None?
    requires raw.packagingLevel1.None? && raw.bottleText.None? && raw.images.None?
    ensures var p := MapProduct(raw).item;
      && p.packagingType == GlassHeavy && p.productionMethod == Conventional
      && p.volumeMl == 750.0 && p.price == 0.0 && p.originCountry == "Okänt"
      && p.category == None && p.imageUrl == "/placeholder-bottle.svg"
  {
    NoPackagingTextIsHeavyGlass(None, None);
  }

  /** An organic 1.5-litre record packed "Bag-in-Box" becomes an organic
      1500 ml bag-in-box product. */
  lemma OrganicBoxRecord(raw: RawProduct)
    requires raw.isOrganic == Some(true) && raw.volume == Some(1500.0)
    requires raw.packagingLevel1 == Some("Bag-in-Box")
    ensures var p := MapProduct(raw).item;
      p.productionMethod == Organic && p.volumeMl == 1500.0 && p.packagingType == BagInBox
  {
    assert Lower("Bag-in-Box") == "bag-in-box";
    assert OccursAt("bag-in-box", "box", 7);
    BoxBeatsEverything("Bag-in-Box");
  }

  // ---------------------------------------------------------------------
  // Search
  // ---------------------------------------------------------------------

  /** The search text of `p` contains every term. */
  predicate MatchesAll(p: CachedProduct, terms: seq<string>) {
    forall k :: 0 <= k < |terms| ==> Contains(p.searchText, terms[k])
  }

  /** The products that match every term, in catalogue order. */
  function Matching(products: seq<CachedProduct>, terms: seq<string>): (ms: seq<CachedProduct>)
    ensures forall p :: p in ms <==> p in products && MatchesAll(p, terms)
  {
    if products == [] then []
    else if MatchesAll(products[0], terms) then [products[0]] + Matching(products[1..], terms)
    else Matching(products[1..], terms)
  }

  /** The lower-cased name of `p` starts with the query. */
  predicate NameStarts(p: CachedProduct, q: string) {
    StartsWith(Lower(p.item.name), q)
  }

  /** The products whose name starts with `q`, in the given order. */
  function Starting(ms: seq<CachedProduct>, q: string): (r: seq<CachedProduct>)
    ensures |r| <= |ms|
    ensures forall i :: 0 <= i < |r| ==> NameStarts(r[i], q)
    ensures forall p :: p in r <==> p in ms && NameStarts(p, q)
  {
    if ms == [] then []
    else if NameStarts(ms[0], q) then [ms[0]] + Starting(ms[1..], q)
    else Starting(ms[1..], q)
  }

  /** The products whose name does not start with `q`, in the given order. */
  function NotStarting(ms: seq<CachedProduct>, q: string): (r: seq<CachedProduct>)
    ensures |r| <= |ms|
    ensures forall i :: 0 <= i < |r| ==> !NameStarts(r[i], q)
    ensures forall p :: p in r <==> p in ms && !NameStarts(p, q)
  {
    if ms == [] then []
    else if NameStarts(ms[0], q) then NotStarting(ms[1..], q)
    else [ms[0]] + NotStarting(ms[1..], q)
  }

  /** `matches.sort(...)` with the 0/1 "name starts with the query" key:
      a stable sort by that key is the bucket of starters followed by the rest. */
  function Ranked(ms: seq<CachedProduct>, q: string): (r: seq<CachedProduct>)
    ensures |r| == |ms|
    ensures forall i, j :: 0 <= i < j < |r| && NameStarts(r[j], q) ==> NameStarts(r[i], q)
  {
    RankedLength(ms, q);
    Starting(ms, q) + NotStarting(ms, q)
  }

  lemma {:induction false} RankedLength(ms: seq<CachedProduct>, q: string)
    ensures |Starting(ms, q)| + |NotStarting(ms, q)| == |ms|
  {
    if ms != [] {
      RankedLength(ms[1..], q);
    }
  }

  /** Ranking only reorders: every product keeps its multiplicity. */
  lemma {:induction false} RankedIsPermutation(ms: seq<CachedProduct>, q: string)
    ensures multiset(Ranked(ms, q)) == multiset(ms)
  {
    if ms != [] {
      RankedIsPermutation(ms[1..], q);
      assert ms == [ms[0]] + ms[1..];
    }
  }

  lemma {:induction false} StartingAppend(a: seq<CachedProduct>, b: seq<CachedProduct>, q: string)
    ensures Starting(a + b, q) == Starting(a, q) + Starting(b, q)
  {
    if a == [] {
      assert a + b == b;
    } else {
      assert (a + b)[1..] == a[1..] + b;
      StartingAppend(a[1..], b, q);
    }
  }

  lemma {:induction false} NotStartingAppend(a: seq<CachedProduct>, b: seq<CachedProduct>, q: string)
    ensures NotStarting(a + b, q) == NotStarting(a, q) + NotStarting(b, q)
  {
    if a == [] {
      assert a + b == b;
    } else {
      assert (a + b)[1..] == a[1..] + b;
      NotStartingAppend(a[1..], b, q);
    }
  }

  lemma {:induction false} StartingIdempotent(ms: seq<CachedProduct>, q: string)
    ensures Starting(Starting(ms, q), q) == Starting(ms, q)
    ensures NotStarting(Starting(ms, q), q) == []
    ensures NotStarting(NotStarting(ms, q), q) == NotStarting(ms, q)
    ensures Starting(NotStarting(ms, q), q) == []
  {
    if ms != [] {
      StartingIdempotent(ms[1..], q);
    }
  }

  /** The sort is stable: within each bucket the products keep their
      catalogue order. */
  lemma RankedIsStable(ms: seq<CachedProduct>, q: string)
    ensures Starting(Ranked(ms, q), q) == Starting(ms, q)
    ensures NotStarting(Ranked(ms, q), q) == NotStarting(ms, q)
  {
    StartingAppend(Starting(ms, q), NotStarting(ms, q), q);
    NotStartingAppend(Starting(ms, q), NotStarting(ms, q), q);
    StartingIdempotent(ms, q);
  }

  /** `s.slice(0, end)` for an integer `end`: a negative end counts from the back. */
  function Slice<T>(s: seq<T>, end: int): (r: seq<T>)
    ensures end >= 0 ==> |r| == if end < |s| then end else |s|
    ensures end < 0 ==> |r| == if |s| + end > 0 then |s| + end else 0
    ensures r == s[..|r|]
  {
    if end >= 0 then (if end < |s| then s[..end] else s)
    else (if |s| + end > 0 then s[..|s| + end] else [])
  }

  /** The trimmed, lower-cased query. */
  function NormalQuery(query: string): string {
    Trim(Lower(query))
  }

  /** A query normalises to nothing exactly when it is blank. */
  lemma NormalQueryEmptyIffBlank(query: string)
    ensures NormalQuery(query) == [] <==> Blank(query)
  {
    TrimEmptyIffBlank(Lower(query));
    LowerKeepsSpaces(query);
  }

  /** Every element of a slice is an element of the sliced sequence. */
  lemma SliceMembers<T>(s: seq<T>, end: int)
    ensures forall x :: x in Slice(s, end) ==> x in s
  {
    var r := Slice(s, end);
    forall x | x in r ensures x in s {
      var i :| 0 <= i < |r| && r[i] == x;
      assert s[i] == x;
    }
  }

  /** The ranked matches of a non-blank normalised query `q`, cut at `limit`. */
  function RankedMatches(products: seq<CachedProduct>, q: string, limit: int): (r: seq<CachedProduct>)
    ensures forall p :: p in r ==> p in products && MatchesAll(p, Words(q))
    ensures limit >= 0 ==> |r| <= limit
    ensures forall i, j :: 0 <= i < j < |r| && NameStarts(r[j], q) ==> NameStarts(r[i], q)
  {
    var ms := Matching(products, Words(q));
    var ranked := Ranked(ms, q);
    RankedIsPermutation(ms, q);
    assert forall p :: p in ranked ==> p in multiset(ms);
    SliceMembers(ranked, limit);
    Slice(ranked, limit)
  }

  /** `searchProducts` over an already loaded catalogue. */
  function Search(products: seq<CachedProduct>, query: string, limit: int): (r: seq<CachedProduct>)
    ensures Blank(query) ==> r == []
    ensures !Blank(query) ==> r == Slice(Ranked(Matching(products, Words(NormalQuery(query))), NormalQuery(query)), limit)
    ensures forall p :: p in r ==> p in products && MatchesAll(p, Words(NormalQuery(query)))
    ensures limit >= 0 ==> |r| <= limit
    ensures forall i, j :: 0 <= i < j < |r| && NameStarts(r[j], NormalQuery(query)) ==> NameStarts(r[i], NormalQuery(query))
  {
    NormalQueryEmptyIffBlank(query);
    if NormalQuery(query) == [] then [] else RankedMatches(products, NormalQuery(query), limit)
  }

  /** With a limit no smaller than the catalogue, every product matching
      every term is found. */
  lemma SearchIsComplete(products: seq<CachedProduct>, query: string, limit: int, p: CachedProduct)
    requires !Blank(query) && limit >= |products|
    requires p in products && MatchesAll(p, Words(NormalQuery(query)))
    ensures p in Search(products, query, limit)
  {
    var q := NormalQuery(query);
    var ms := Matching(products, Words(q));
    RankedIsPermutation(ms, q);
    assert p in multiset(ms);
    MatchingBounded(products, Words(q));
  }

  lemma {:induction false} MatchingBounded(products: seq<CachedProduct>, terms: seq<string>)
    ensures |Matching(products, terms)| <= |products|
  {
    if products != [] {
      MatchingBounded(products[1..], terms);
    }
  }

  /** Every term of the query occurs in the text the query was taken from. */
  lemma QueryTermsOccur(query: string, text: string)
    requires Contains(text, Lower(query))
    ensures forall k :: 0 <= k < |Words(NormalQuery(query))| ==> Contains(text, Words(NormalQuery(query))[k])
  {
    var q := NormalQuery(query);
    TrimIsContained(Lower(query));
    ContainsTransitive(text, Lower(query), q);
    WordsOccur(q);
    forall k | 0 <= k < |Words(q)| ensures Contains(text, Words(q)[k]) {
      ContainsTransitive(text, q, Words(q)[k]);
    }
  }

  /** Searching for a product's own name finds it, given room in the limit. */
  lemma SearchFindsByName(products: seq<CachedProduct>, raw: RawProduct, limit: int)
    requires MapProduct(raw) in products && limit >= |products|
    requires !Blank(MapProduct(raw).item.name)
    ensures MapProduct(raw) in Search(products, MapProduct(raw).item.name, limit)
  {
    var c := MapProduct(raw);
    SearchTextStartsWithName(raw);
    PrefixIsContained(c.searchText, Lower(c.item.name));
    QueryTermsOccur(c.item.name, c.searchText);
    SearchIsComplete(products, c.item.name, limit, c);
  }

  /** Searching for a product's own article number finds it, given room in the limit. */
  lemma SearchFindsByNumber(products: seq<CachedProduct>, raw: RawProduct, limit: int)
    requires MapProduct(raw) in products && limit >= |products|
    requires !Blank(raw.productNumber)
    ensures MapProduct(raw) in Search(products, raw.productNumber, limit)
  {
    var c := MapProduct(raw);
    NumberInSearchText(raw);
    QueryTermsOccur(raw.productNumber, c.searchText);
    SearchIsComplete(products, raw.productNumber, limit, c);
  }

  /** The lower-cased article number occurs in the search text, at its end. */
  lemma NumberInSearchText(raw: RawProduct)
    ensures Contains(MapProduct(raw).searchText, Lower(raw.productNumber))
  {
    SearchTextEndsWithNumber(raw);
    SuffixIsContained(MapProduct(raw).searchText, Lower(raw.productNumber));
  }

  // ---------------------------------------------------------------------
  // Barcode lookup
  // ---------------------------------------------------------------------

  /** Position of the first product with article number `code`, or `|products|`. */
  function NumberIndex(products: seq<CachedProduct>, code: string): (i: nat)
    ensures i <= |products|
    ensures i < |products| ==> products[i].productNumber == code
    ensures forall j :: 0 <= j < i ==> products[j].productNumber != code
  {
    if products == [] then 0
    else if products[0].productNumber == code then 0
    else 1 + NumberIndex(products[1..], code)
  }

  /** Position of the first product with id `code`, or `|products|`. */
  function IdIndex(products: seq<CachedProduct>, code: string): (i: nat)
    ensures i <= |products|
    ensures i < |products| ==> products[i].item.id == code
    ensures forall j :: 0 <= j < i ==> products[j].item.id != code
  {
    if products == [] then 0
    else if products[0].item.id == code then 0
    else 1 + IdIndex(products[1..], code)
  }

  /** Entry `i` is the first with article number `code`. */
  predicate FirstNumberAt(products: seq<CachedProduct>, code: string, i: int) {
    0 <= i < |products| && products[i].productNumber == code
    && forall j :: 0 <= j < i ==> products[j].productNumber != code
  }

  /** Entry `i` is the first with id `code`. */
  predicate FirstIdAt(products: seq<CachedProduct>, code: string, i: int) {
    0 <= i < |products| && products[i].item.id == code
    && forall j :: 0 <= j < i ==> products[j].item.id != code
  }

  /** The first product with article number `code`, else the first with id
      `code`, else none. */
  function FindCode(products: seq<CachedProduct>, code: string): (r: Option<CachedProduct>)
    ensures r.None? <==> forall j :: 0 <= j < |products| ==> products[j].productNumber != code && products[j].item.id != code
    ensures forall i :: FirstNumberAt(products, code, i) ==> r == Some(products[i])
    ensures (forall j :: 0 <= j < |products| ==> products[j].productNumber != code) ==>
              forall i :: FirstIdAt(products, code, i) ==> r == Some(products[i])
    ensures r.Some? ==> r.value in products && (r.value.productNumber == code || r.value.item.id == code)
  {
    var n := NumberIndex(products, code);
    if n < |products| then Some(products[n])
    else
      var d := IdIndex(products, code);
      if d < |products| then Some(products[d]) else None
  }

  /** `getProductByBarcode` over an already loaded catalogue: exact matches
      of the trimmed code only, article number before id. */
  function FindByBarcode(products: seq<CachedProduct>, barcode: string): (r: Option<CachedProduct>)
    ensures var code := Trim(barcode);
      && (r.None? <==> forall j :: 0 <= j < |products| ==> products[j].productNumber != code && products[j].item.id != code)
      && (forall i :: FirstNumberAt(products, code, i) ==> r == Some(products[i]))
      && ((forall j :: 0 <= j < |products| ==> products[j].productNumber != code) ==>
            forall i :: FirstIdAt(products, code, i) ==> r == Some(products[i]))
      && (r.Some? ==> r.value in products && (r.value.productNumber == code || r.value.item.id == code))
  {
    FindCode(products, Trim(barcode))
  }
}
