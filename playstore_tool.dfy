/** The Play Store lookup tool: search by name, take the first hit, fetch its
    details and normalise them into a rating record with defaults. The scraper
    calls are inputs: the search outcome, a details lookup by app id, and the
    ISO-8601 rendering of a timestamp (which throws on an invalid date). */
module PlayStoreTool {
  import opened Wrappers
  import opened Text

  /** A price as the scraper reports it and as the record carries it:
      a number, or a display string. */
  datatype Price = Amount(amount: real) | Label(text: string)

  /** The tool's output record. */
  datatype RatingRecord = RatingRecord(
    appId: string,
    title: string,
    rating: real,
    ratingsCount: int,
    reviews: int,
    installs: string,
    price: Price,
    developer: string,
    lastUpdated: string,
    version: string,
    url: string)

  datatype SearchHit = SearchHit(appId: string)

  /** The scraper's app-details record; `None` is a missing field. */
  datatype AppDetails = AppDetails(
    appId: string,
    title: string,
    score: Option<real>,
    ratings: Option<int>,
    reviews: Option<int>,
    installs: Option<string>,
    free: bool,
    price: Option<Price>,
    developer: Option<string>,
    updated: Option<int>,
    version: Option<string>,
    url: Option<string>)

  const ErrorPrefix := "Failed to fetch app details: "
  const NotFoundPrefix := "No app found with name: "
  const Unknown := "Unknown"
  const StoreUrlPrefix := "https://play.google.com/store/apps/details?id="

  // JavaScript truthiness of the optional fields (NaN is not modelled).
  predicate RealTruthy(o: Option<real>) { o.Some? && o.value != 0.0 }
  predicate IntTruthy(o: Option<int>) { o.Some? && o.value != 0 }
  predicate TextTruthy(o: Option<string>) { o.Some? && o.value != "" }
  predicate PriceTruthy(o: Option<Price>) {
    o.Some? && match o.value
               case Amount(a) => a != 0.0
               case Label(t) => t != ""
  }

  /** The output record built from a details record (the object literal of
      the tool's `execute`), or the error `toISOString` throws. */
  function Normalize(d: AppDetails, isoDate: int -> Result<string, string>): (r: Result<RatingRecord, string>)
    ensures r.Failure? <==> IntTruthy(d.updated) && isoDate(d.updated.value).Failure?
    ensures r.Failure? ==> r.error == isoDate(d.updated.value).error
    ensures r.Success? ==> r.value.appId == d.appId && r.value.title == d.title
    ensures r.Success? ==> r.value.rating == (if RealTruthy(d.score) then d.score.value else 0.0)
    ensures r.Success? ==> r.value.ratingsCount == (if IntTruthy(d.ratings) then d.ratings.value else 0)
    ensures r.Success? ==> r.value.reviews == (if IntTruthy(d.reviews) then d.reviews.value else 0)
    ensures r.Success? ==> r.value.installs == (if TextTruthy(d.installs) then d.installs.value else Unknown)
    ensures r.Success? ==> r.value.price == (if d.free then Label("Free")
                                             else if PriceTruthy(d.price) then d.price.value
                                             else Label(Unknown))
    ensures r.Success? ==> r.value.developer == (if TextTruthy(d.developer) then d.developer.value else Unknown)
    ensures r.Success? ==> r.value.lastUpdated == (if IntTruthy(d.updated) then isoDate(d.updated.value).value else Unknown)
    ensures r.Success? ==> r.value.version == (if TextTruthy(d.version) then d.version.value else Unknown)
    ensures r.Success? ==> r.value.url == (if TextTruthy(d.url) then d.url.value else StoreUrlPrefix + d.appId)
  {
    var lastUpdated :-
      if IntTruthy(d.updated) then isoDate(d.updated.value) else Success(Unknown);
    Success(RatingRecord(
      d.appId,
      d.title,
      if RealTruthy(d.score) then d.score.value else 0.0,
      if IntTruthy(d.ratings) then d.ratings.value else 0,
      if IntTruthy(d.reviews) then d.reviews.value else 0,
      if TextTruthy(d.installs) then d.installs.value else Unknown,
      if d.free then Label("Free") else if PriceTruthy(d.price) then d.price.value else Label(Unknown),
      if TextTruthy(d.developer) then d.developer.value else Unknown,
      lastUpdated,
      if TextTruthy(d.version) then d.version.value else Unknown,
      if TextTruthy(d.url) then d.url.value else StoreUrlPrefix + d.appId))
  }

  /** A normalised record never carries an empty string in a field that has a
      default, and never a falsy price. */
  lemma NormalizedFieldsNeverFalsy(d: AppDetails, isoDate: int -> Result<string, string>)
    requires Normalize(d, isoDate).Success?
    ensures var rec := Normalize(d, isoDate).value;
      rec.installs != "" && rec.developer != "" && rec.version != "" && rec.url != ""
      && PriceTruthy(Some(rec.price))
      && (rec.lastUpdated == "" ==> IntTruthy(d.updated))
  {
  }

  /** Fields that are present and truthy pass through unchanged. */
  lemma PresentFieldsPassThrough(d: AppDetails, isoDate: int -> Result<string, string>)
    requires RealTruthy(d.score) && IntTruthy(d.ratings) && IntTruthy(d.reviews)
    requires TextTruthy(d.installs) && TextTruthy(d.developer) && TextTruthy(d.version) && TextTruthy(d.url)
    requires !d.free && PriceTruthy(d.price) && !IntTruthy(d.updated)
    ensures Normalize(d, isoDate) == Success(RatingRecord(
      d.appId, d.title, d.score.value, d.ratings.value, d.reviews.value, d.installs.value,
      d.price.value, d.developer.value, Unknown, d.version.value, d.url.value))
  {
  }

  /** The body of the tool's `try`: search, not-found check, first hit, details. */
  function Lookup(appName: string, search: Result<Option<seq<SearchHit>>, string>,
                  app: string -> Result<AppDetails, string>,
                  isoDate: int -> Result<string, string>): (r: Result<RatingRecord, string>)
    ensures search.Failure? ==> r == Failure(search.error)
    ensures search.Success? && (search.value.None? || search.value.value == [])
            ==> r == Failure(NotFoundPrefix + appName)
    ensures search.Success? && search.value.Some? && search.value.value != [] ==>
      var details := app(search.value.value[0].appId);
      && (details.Failure? ==> r == Failure(details.error))
      && (details.Success? ==> r == Normalize(details.value, isoDate))
  {
    var hits :- search;
    if hits.None? || |hits.value| == 0 then Failure(NotFoundPrefix + appName)
    else
      var details :- app(hits.value[0].appId);
      Normalize(details, isoDate)
  }

  /** The tool's `execute`: `Lookup` with every thrown message rethrown behind
      the "Failed to fetch app details: " prefix. */
  function Execute(appName: string, search: Result<Option<seq<SearchHit>>, string>,
                   app: string -> Result<AppDetails, string>,
                   isoDate: int -> Result<string, string>): (r: Result<RatingRecord, string>)
    ensures r.Failure? ==> StartsWith(r.error, ErrorPrefix)
    ensures r.Success? <==> Lookup(appName, search, app, isoDate).Success?
    ensures r.Success? ==> r.value == Lookup(appName, search, app, isoDate).value
    ensures r.Failure? ==> r.error == ErrorPrefix + Lookup(appName, search, app, isoDate).error
    ensures search.Failure? ==> r == Failure(ErrorPrefix + search.error)
    ensures search.Success? && (search.value.None? || search.value.value == [])
            ==> r == Failure(ErrorPrefix + NotFoundPrefix + appName)
    ensures search.Success? && search.value.Some? && search.value.value != [] ==>
      var details := app(search.value.value[0].appId);
      && (details.Failure? ==> r == Failure(ErrorPrefix + details.error))
      && (details.Success? ==> r.Success? == Normalize(details.value, isoDate).Success?)
      && (details.Success? && r.Success? ==> r.value == Normalize(details.value, isoDate).value)
  {
    match Lookup(appName, search, app, isoDate)
    case Success(rec) => Success(rec)
    case Failure(message) =>
      var e := ErrorPrefix + message;
      assert e[..|ErrorPrefix|] == ErrorPrefix;
      assert ErrorPrefix + (NotFoundPrefix + appName) == ErrorPrefix + NotFoundPrefix + appName;
      Failure(e)
  }

  /** Only the first search hit matters: two searches whose first hits name the
      same app give the same outcome, whatever else they return. */
  lemma FirstHitOnly(appName: string, hits1: seq<SearchHit>, hits2: seq<SearchHit>,
                     app: string -> Result<AppDetails, string>,
                     isoDate: int -> Result<string, string>)
    requires hits1 != [] && hits2 != [] && hits1[0].appId == hits2[0].appId
    ensures Execute(appName, Success(Some(hits1)), app, isoDate)
         == Execute(appName, Success(Some(hits2)), app, isoDate)
  {
  }

  /** On success the record's app id is the first hit's when the details
      service echoes the id it was asked for. */
  lemma RecordIsFirstHit(appName: string, hits: seq<SearchHit>,
                         app: string -> Result<AppDetails, string>,
                         isoDate: int -> Result<string, string>)
    requires hits != []
    requires app(hits[0].appId).Success? ==> app(hits[0].appId).value.appId == hits[0].appId
    ensures Execute(appName, Success(Some(hits)), app, isoDate).Success? ==>
            Execute(appName, Success(Some(hits)), app, isoDate).value.appId == hits[0].appId
  {
  }
}
