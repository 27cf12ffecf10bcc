/**
 * The record shapes and closed enumerations shared by every part of the app
 * (src/types/index.ts), plus the optional and error-carrying values that
 * stand for `undefined`/`null` and thrown errors.
 */
module Types {

  /** An optional value: `undefined` or `null` on the JavaScript side. */
  datatype Option<T> = None | Some(value: T)

  /** A value or the message of the error thrown instead. */
  datatype Result<T> = Ok(value: T) | Err(message: string)

  datatype PackagingType = GlassHeavy | GlassLight | AluminumCan | Pet | BagInBox | Tetra

  datatype ProductionMethod = Conventional | Organic | Biodynamic

  datatype TransportMethod = Sea | Road | Air

  datatype ScoreBadge = Green | Yellow | Red

  /** The string each packaging type is stored as. */
  function PackagingKey(t: PackagingType): string {
    match t
    case GlassHeavy => "glass_heavy"
    case GlassLight => "glass_light"
    case AluminumCan => "aluminum_can"
    case Pet => "pet"
    case BagInBox => "bag_in_box"
    case Tetra => "tetra"
  }

  /** The string each production method is stored as. */
  function ProductionKey(m: ProductionMethod): string {
    match m
    case Conventional => "conventional"
    case Organic => "organic"
    case Biodynamic => "biodynamic"
  }

  /** A product as the comparison list and the scoring engine see it.
      JavaScript numbers are taken as exact reals. */
  datatype Product = Product(
    id: string,
    name: string,
    imageUrl: string,
    packagingType: PackagingType,
    originCountry: string,
    productionMethod: ProductionMethod,
    volumeMl: real,
    price: real,
    category: Option<string>,
    producer: Option<string>,
    alcoholPercentage: Option<real>)

  datatype Thresholds = Thresholds(greenMax: real, yellowMax: real)

  /** The user-adjustable weights. Each table is a JavaScript object, so at
      run time a key may be absent; `WellTyped` is what the declared type
      promises. */
  datatype ClimateSettings = ClimateSettings(
    packaging: map<PackagingType, real>,
    transport: map<TransportMethod, real>,
    production: map<ProductionMethod, real>,
    thresholds: Thresholds)

  /** Every key of every weight table is present. */
  predicate WellTyped(s: ClimateSettings) {
    && (forall t: PackagingType :: t in s.packaging)
    && (forall m: TransportMethod :: m in s.transport)
    && (forall m: ProductionMethod :: m in s.production)
  }

  datatype ProductWithScore = ProductWithScore(product: Product, climateScore: int, badge: ScoreBadge)
}
