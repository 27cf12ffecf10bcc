/**
 * The in-memory product cache of src/lib/products-cache.ts as a sequential
 * state machine: one call of `getProducts` is one step from a cache state
 * to the next. The clock readings, the outcome of the file-cache read and
 * the outcome of the catalogue request are inputs of the step.
 */
module ProductCache {
  import opened Types
  import opened Strings
  import opened Catalog

  /** `CACHE_DURATION`: 24 hours in milliseconds. */
  const CacheDuration: int := 24 * 60 * 60 * 1000

  /** The module-level variables `productsCache`, `lastFetchTime`,
      `isLoading` and `loadError`. */
  datatype CacheState = CacheState(
    products: Option<seq<CachedProduct>>,
    lastFetchTime: int,
    isLoading: bool,
    loadError: Option<string>)

  /** The state when the server starts. */
  const InitialState: CacheState := CacheState(None, 0, false, None)

  /** A readable file cache: the time it was written and its products. */
  datatype FileCache = FileCache(timestamp: int, products: seq<CachedProduct>)

  /** How the catalogue request ends: a response that is not OK, a thrown
      value (an `Error` with its message, or anything else), or the parsed
      list of records. */
  datatype FetchOutcome =
    | NotOk
    | Thrown(isError: bool, message: string)
    | Fetched(data: seq<RawProduct>)

  /** The outcome of one `getProducts` call: the next state, the list
      returned or the message of the error thrown, and the list handed to
      the background file-cache write, if any. */
  datatype Step = Step(state: CacheState, result: Result<seq<CachedProduct>>, saved: Option<seq<CachedProduct>>)

  const FetchFailedMessage: string := "Failed to fetch products"
  const UnknownErrorMessage: string := "Unknown error"

  /** The memory cache holds a list fetched less than 24 hours before `now`. */
  predicate Fresh(s: CacheState, now: int) {
    s.products.Some? && now - s.lastFetchTime < CacheDuration
  }

  /** `loadFromFileCache` yields a list: the file is readable and was
      written less than 24 hours before the clock reading `fileNow`. */
  predicate FileUsable(file: Option<FileCache>, fileNow: int) {
    file.Some? && fileNow - file.value.timestamp < CacheDuration
  }

  /** `data.map(mapProduct)` */
  function MapAll(data: seq<RawProduct>): (ps: seq<CachedProduct>)
    ensures |ps| == |data|
    ensures forall i :: 0 <= i < |data| ==> ps[i] == MapProduct(data[i])
  {
    seq(|data|, i requires 0 <= i < |data| => MapProduct(data[i]))
  }

  /** The body of the `try` block and its `catch`/`finally`, entered with
      `isLoading` set and `loadError` cleared. */
  function Load(s: CacheState, now: int, fileNow: int, file: Option<FileCache>, fetch: FetchOutcome): (st: Step)
    ensures !st.state.isLoading
    ensures st.result.Ok? ==> st.state.products == Some(st.result.value) && st.state.loadError == s.loadError
    ensures st.result.Err? ==> st.state == s.(isLoading := false, loadError := Some(st.result.message))
  {
    if FileUsable(file, fileNow) then
      Step(s.(products := Some(file.value.products), lastFetchTime := file.value.timestamp, isLoading := false),
           Ok(file.value.products), None)
    else
      match fetch
      case NotOk =>
        Step(s.(isLoading := false, loadError := Some(FetchFailedMessage)), Err(FetchFailedMessage), None)
      case Thrown(isError, message) =>
        var m := if isError then message else UnknownErrorMessage;
        Step(s.(isLoading := false, loadError := Some(m)), Err(m), None)
      case Fetched(data) =>
        var ps := MapAll(data);
        Step(s.(products := Some(ps), lastFetchTime := now, isLoading := false), Ok(ps), Some(ps))
  }

  /** One call of `getProducts` begun at clock reading `now`. When another
      load is in progress the call waits; `afterWait` is the state it finds
      when that load has finished. */
  function GetProducts(s: CacheState, now: int, afterWait: CacheState, fileNow: int,
                       file: Option<FileCache>, fetch: FetchOutcome): (st: Step)
    requires s.isLoading ==> !afterWait.isLoading
    ensures Fresh(s, now) ==> st == Step(s, Ok(s.products.value), None)
    ensures !Fresh(s, now) ==> !st.state.isLoading
    ensures st.result.Ok? ==> st.state.products == Some(st.result.value)
    ensures st.saved.Some? ==> st.result == Ok(st.saved.value) && st.state.lastFetchTime == now
    ensures st.result.Err? ==> st.state.products == (if s.isLoading then afterWait else s).products
                               && st.state.loadError == Some(st.result.message)
  {
    if Fresh(s, now) then Step(s, Ok(s.products.value), None)
    else if s.isLoading && afterWait.products.Some? then Step(afterWait, Ok(afterWait.products.value), None)
    else
      var start := if s.isLoading then afterWait else s;
      Load(start.(isLoading := true, loadError := None), now, fileNow, file, fetch)
  }

  /** A failed load keeps whatever list was cached, records the error and
      ends the loading flag. */
  lemma FailureKeepsProducts(s: CacheState, now: int, fileNow: int, file: Option<FileCache>, message: string)
    requires !Fresh(s, now) && !s.isLoading && !FileUsable(file, fileNow)
    ensures var st := GetProducts(s, now, s, fileNow, file, NotOk);
      && st.result == Err(FetchFailedMessage)
      && st.state.products == s.products && st.state.lastFetchTime == s.lastFetchTime
      && st.state.loadError == Some(FetchFailedMessage) && !st.state.isLoading
    ensures var st := GetProducts(s, now, s, fileNow, file, Thrown(false, message));
      && st.result == Err(UnknownErrorMessage)
      && st.state.products == s.products && st.state.loadError == Some(UnknownErrorMessage)
  {
  }

  /** A successful fetch caches the mapped records, stamped with the time
      the call began, and hands them to the file-cache write. */
  lemma FetchCachesMappedRecords(s: CacheState, now: int, fileNow: int, file: Option<FileCache>, data: seq<RawProduct>)
    requires !Fresh(s, now) && !s.isLoading && !FileUsable(file, fileNow)
    ensures var st := GetProducts(s, now, s, fileNow, file, Fetched(data));
      && st.result == Ok(MapAll(data)) && st.saved == Some(MapAll(data))
      && st.state == CacheState(Some(MapAll(data)), now, false, None)
  {
  }

  /** A usable file cache is adopted with its own time stamp, and nothing is
      fetched or written. */
  lemma FileCacheAdopted(s: CacheState, now: int, fileNow: int, file: Option<FileCache>, fetch: FetchOutcome)
    requires !Fresh(s, now) && !s.isLoading && FileUsable(file, fileNow)
    ensures var st := GetProducts(s, now, s, fileNow, file, fetch);
      && st.result == Ok(file.value.products) && st.saved == None
      && st.state == CacheState(Some(file.value.products), file.value.timestamp, false, None)
  {
  }

  /** After a call that returned a list, another call within 24 hours of the
      list's time stamp returns the same list and changes nothing, whatever
      the file and the network would have given. */
  lemma SecondCallHitsCache(s: CacheState, now: int, afterWait: CacheState, fileNow: int, file: Option<FileCache>,
                            fetch: FetchOutcome, later: int, afterWait2: CacheState, fileNow2: int,
                            file2: Option<FileCache>, fetch2: FetchOutcome)
    requires s.isLoading ==> !afterWait.isLoading
    requires !afterWait2.isLoading
    requires GetProducts(s, now, afterWait, fileNow, file, fetch).result.Ok?
    requires later - GetProducts(s, now, afterWait, fileNow, file, fetch).state.lastFetchTime < CacheDuration
    ensures var first := GetProducts(s, now, afterWait, fileNow, file, fetch);
      var second := GetProducts(first.state, later, afterWait2, fileNow2, file2, fetch2);
      second == Step(first.state, first.result, None)
  {
  }

  /** A call that fetched, repeated within 24 hours, needs no second fetch. */
  lemma FetchThenRepeat(data: seq<RawProduct>, now: int, later: int, fileNow: int, file: Option<FileCache>,
                        fetch2: FetchOutcome, fileNow2: int, file2: Option<FileCache>)
    requires !FileUsable(file, fileNow) && later - now < CacheDuration
    ensures var first := GetProducts(InitialState, now, InitialState, fileNow, file, Fetched(data));
      var second := GetProducts(first.state, later, InitialState, fileNow2, file2, fetch2);
      second.result == Ok(MapAll(data)) && second.state == first.state
  {
    FetchCachesMappedRecords(InitialState, now, fileNow, file, data);
  }

  /** `CacheStatus` */
  datatype CacheStatus = CacheStatus(isLoaded: bool, isLoading: bool, productCount: nat, cacheAge: Option<int>, error: Option<string>)

  /** `getCacheStatus` at clock reading `now`. */
  function Status(s: CacheState, now: int): (c: CacheStatus)
    ensures c.isLoaded <==> s.products.Some?
    ensures c.productCount == if s.products.Some? then |s.products.value| else 0
    ensures c.cacheAge.None? <==> s.lastFetchTime == 0
    ensures c.cacheAge.Some? ==> c.cacheAge.value == now - s.lastFetchTime
    ensures c.isLoading == s.isLoading && c.error == s.loadError
  {
    CacheStatus(
      s.products.Some?,
      s.isLoading,
      if s.products.Some? then |s.products.value| else 0,
      if s.lastFetchTime != 0 then Some(now - s.lastFetchTime) else None,
      s.loadError)
  }

  /** After a fetch the status reports the list as loaded, with one entry
      per record and no error. */
  lemma StatusAfterFetch(s: CacheState, now: int, fileNow: int, file: Option<FileCache>, data: seq<RawProduct>, at: int)
    requires !Fresh(s, now) && !s.isLoading && !FileUsable(file, fileNow)
    ensures var c := Status(GetProducts(s, now, s, fileNow, file, Fetched(data)).state, at);
      c.isLoaded && c.productCount == |data| && c.error == None && !c.isLoading
  {
    FetchCachesMappedRecords(s, now, fileNow, file, data);
  }

  /** A failed first load leaves nothing loaded and reports the error. */
  lemma StatusAfterFailedStart(now: int, fileNow: int, file: Option<FileCache>, at: int)
    requires !FileUsable(file, fileNow)
    ensures var c := Status(GetProducts(InitialState, now, InitialState, fileNow, file, NotOk).state, at);
      !c.isLoaded && c.productCount == 0 && c.cacheAge == None && c.error == Some(FetchFailedMessage)
  {
  }

  /** The next state and what a cached query returns or throws. */
  datatype Answer<T> = Answer(state: CacheState, result: Result<T>)

  /** `searchProducts`: loads the list first, so even a blank query can
      start a load and can throw. */
  function SearchProducts(s: CacheState, now: int, afterWait: CacheState, fileNow: int, file: Option<FileCache>,
                          fetch: FetchOutcome, query: string, limit: int): (a: Answer<seq<CachedProduct>>)
    requires s.isLoading ==> !afterWait.isLoading
    ensures var st := GetProducts(s, now, afterWait, fileNow, file, fetch);
      && a.state == st.state
      && (st.result.Err? ==> a.result == Err(st.result.message))
      && (st.result.Ok? ==> a.result == Ok(Search(st.result.value, query, limit)))
  {
    var st := GetProducts(s, now, afterWait, fileNow, file, fetch);
    match st.result
    case Err(m) => Answer(st.state, Err(m))
    case Ok(ps) => Answer(st.state, Ok(Search(ps, query, limit)))
  }

  /** A fresh cache answers from memory: the state is untouched and every
      result is a cached product matching the query. */
  lemma SearchFromFreshCache(s: CacheState, now: int, afterWait: CacheState, fileNow: int, file: Option<FileCache>,
                             fetch: FetchOutcome, query: string, limit: int)
    requires s.isLoading ==> !afterWait.isLoading
    requires Fresh(s, now)
    ensures var a := SearchProducts(s, now, afterWait, fileNow, file, fetch, query, limit);
      && a.state == s && a.result.Ok?
      && forall p :: p in a.result.value ==> p in s.products.value && MatchesAll(p, Words(NormalQuery(query)))
  {
  }

  /** A blank query on an empty cache still loads the catalogue, and its
      failure surfaces as the error of the search. */
  lemma BlankQueryStillLoads(now: int, fileNow: int, file: Option<FileCache>, query: string, limit: int)
    requires Blank(query) && !FileUsable(file, fileNow)
    ensures var a := SearchProducts(InitialState, now, InitialState, fileNow, file, NotOk, query, limit);
      a.result == Err(FetchFailedMessage) && a.state.loadError == Some(FetchFailedMessage)
  {
  }

  /** `getProductByBarcode`: loads the list first, then looks the code up. */
  function ProductByBarcode(s: CacheState, now: int, afterWait: CacheState, fileNow: int, file: Option<FileCache>,
                            fetch: FetchOutcome, barcode: string): (a: Answer<Option<CachedProduct>>)
    requires s.isLoading ==> !afterWait.isLoading
    ensures var st := GetProducts(s, now, afterWait, fileNow, file, fetch);
      && a.state == st.state
      && (st.result.Err? ==> a.result == Err(st.result.message))
      && (st.result.Ok? ==> a.result == Ok(FindByBarcode(st.result.value, barcode)))
  {
    var st := GetProducts(s, now, afterWait, fileNow, file, fetch);
    match st.result
    case Err(m) => Answer(st.state, Err(m))
    case Ok(ps) => Answer(st.state, Ok(FindByBarcode(ps, barcode)))
  }

  /** A fresh cache answers a barcode from memory: the state is untouched
      and a product is found exactly when one has the trimmed code as its
      article number or id. */
  lemma BarcodeFromFreshCache(s: CacheState, now: int, afterWait: CacheState, fileNow: int, file: Option<FileCache>,
                              fetch: FetchOutcome, barcode: string)
    requires s.isLoading ==> !afterWait.isLoading
    requires Fresh(s, now)
    ensures var a := ProductByBarcode(s, now, afterWait, fileNow, file, fetch, barcode);
      && a.state == s && a.result.Ok?
      && (a.result.value.Some? <==>
            exists j :: 0 <= j < |s.products.value| && (s.products.value[j].productNumber == Trim(barcode) || s.products.value[j].item.id == Trim(barcode)))
  {
  }
}
