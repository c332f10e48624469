/**
 * What `search_by_type` promises, stated per search type rather than by the
 * string comparisons and lookups the tool performs, and proved of the model.
 */
module SearchToolSpec {
  import opened Wrappers
  import opened Text
  import opened Enums
  import opened SearchTool

  /** The search type names one of the nine types, in any case. */
  predicate TypeAccepted(req: Request) {
    Upper(req.searchType) in TypeNames
  }

  /** No ordering was given, the type has no orderings, or the ordering names one of the type's. */
  predicate OrderAccepted(catalog: Catalog, t: SearchType, req: Request) {
    !Supplied(req.orderType) || OrderTable(catalog, t).None? || Upper(req.orderType.value) in OrderTable(catalog, t).value
  }

  /** No zone was given, the search is not a video search, or the zone names a video zone. */
  predicate ZoneAccepted(catalog: Catalog, t: SearchType, req: Request) {
    !Supplied(req.videoZoneType) || t != Video || Upper(req.videoZoneType.value) in catalog.zoneTypes
  }

  /** No category was given, the type has no categories, it is an integer, or it names one of the type's. */
  predicate CategoryAccepted(catalog: Catalog, t: SearchType, req: Request) {
    || !CategorySupplied(req.categoryId)
    || CategoryTable(catalog, t).None?
    || req.categoryId.value.CategoryInt?
    || Upper(req.categoryId.value.name) in CategoryNames(CategoryTable(catalog, t).value)
  }

  /** At most one date is given, or both contain exactly two `-`. */
  predicate DatesAccepted(req: Request) {
    !(Supplied(req.timeStart) && Supplied(req.timeEnd)) || (Count(req.timeStart.value, '-') == 2 && Count(req.timeEnd.value, '-') == 2)
  }

  /** The call the client should receive for a request of search type `t`. */
  predicate ResolvedFrom(catalog: Catalog, t: SearchType, req: Request, call: SearchCall) {
    && call.searchType == t
    && call.orderType == (if Supplied(req.orderType) then Ordering(t, Upper(req.orderType.value)) else None)
    && call.videoZoneType == (if Supplied(req.videoZoneType) && t == Video then Some(Upper(req.videoZoneType.value)) else None)
    && CategoryResolved(catalog, t, req.categoryId, call.categoryId)
    && call.keyword == req.keyword && call.orderSort == req.orderSort && call.timeRange == req.timeRange
    && call.timeStart == req.timeStart && call.timeEnd == req.timeEnd
    && call.page == req.page && call.pageSize == req.pageSize
  }

  /** The error record of a rejected search type. */
  function SearchTypeError(req: Request): ErrorRecord {
    ErrorRecord(ErrorCode, InvalidSearchType(req.searchType), Some(ValidList(ValidTypes, TypeNames)))
  }

  /** The search type of a request, for a search type that resolved. */
  predicate ResolvesTo(req: Request, t: SearchType) {
    Upper(req.searchType) == Name(t)
  }

  // ---------------------------------------------------------------------------
  // Validation as a sequence of steps

  /**
   * `Validate` returns the error of the first step that fails, and otherwise
   * the call assembled from the values the steps resolved.
   */
  lemma ValidationSteps(catalog: Catalog, req: Request)
    ensures ResolveSearchType(req.searchType).Failure? ==> Validate(catalog, req) == Failure(ResolveSearchType(req.searchType).error)
    ensures ResolveSearchType(req.searchType).Success? ==>
              var t := ResolveSearchType(req.searchType).value;
              var order := ResolveOrder(catalog, t, req.orderType);
              var zone := ResolveZone(catalog, t, req.videoZoneType);
              var category := ResolveCategory(catalog, t, req.categoryId);
              var dates := CheckDates(req.timeStart, req.timeEnd);
              Validate(catalog, req) ==
                if order.Failure? then Failure(order.error)
                else if zone.Failure? then Failure(zone.error)
                else if category.Failure? then Failure(category.error)
                else if dates.Failure? then Failure(dates.error)
                else Success(SearchCall(req.keyword, t, order.value, req.orderSort, req.timeRange, zone.value, category.value,
                                        req.timeStart, req.timeEnd, req.page, req.pageSize))
  {
    var searchType := ResolveSearchType(req.searchType);
    if searchType.Failure? {
      return;
    }
    var t := searchType.value;
    var order := ResolveOrder(catalog, t, req.orderType);
    if order.Failure? {
      assert Validate(catalog, req) == Failure(order.error);
      return;
    }
    var zone := ResolveZone(catalog, t, req.videoZoneType);
    if zone.Failure? {
      assert Validate(catalog, req) == Failure(zone.error);
      return;
    }
    var category := ResolveCategory(catalog, t, req.categoryId);
    if category.Failure? {
      assert Validate(catalog, req) == Failure(category.error);
      return;
    }
    var dates := CheckDates(req.timeStart, req.timeEnd);
    if dates.Failure? {
      assert Validate(catalog, req) == Failure(dates.error);
    }
  }

  // ---------------------------------------------------------------------------
  // The search type

  /** Every type name is written in upper case. */
  lemma NameIsUpperCase(t: SearchType)
    ensures IsUpperCase(Name(t))
  {
    match t
    case Video =>
    case Bangumi =>
    case Ft =>
    case Live =>
    case Article =>
    case Topic =>
    case User =>
    case LiveUser =>
    case Photo =>
  }

  /** Any spelling whose upper-case form is a type's name resolves to that type. */
  lemma SearchTypeAnyCase(t: SearchType, s: string)
    requires Upper(s) == Name(t)
    ensures ResolveSearchType(s) == Success(t)
  {
    TypeNamesEnumerateTypes();
    NameInjective(ResolveSearchType(s).value, t);
  }

  /** In particular the all-lower-case spelling of every type name resolves to that type. */
  lemma LowerCaseTypeResolves(t: SearchType)
    ensures ResolveSearchType(Lower(Name(t))) == Success(t)
  {
    NameIsUpperCase(t);
    UpperIgnoresCase(Name(t));
    UpperOfUpperCase(Name(t));
    SearchTypeAnyCase(t, Lower(Name(t)));
  }

  /** An unknown search type is reported with all nine names, and only an unknown one is. */
  lemma SearchTypeChecked(catalog: Catalog, req: Request)
    ensures Validate(catalog, req) == Failure(SearchTypeError(req)) <==> !TypeAccepted(req)
  {
    ValidationSteps(catalog, req);
  }

  /** Spellings of a known search type that differ only in case are validated alike. */
  lemma SearchTypeCaseInsensitive(catalog: Catalog, req: Request, s: string)
    requires TypeAccepted(req)
    requires Upper(s) == Upper(req.searchType)
    ensures Validate(catalog, req.(searchType := s)) == Validate(catalog, req)
  {
    var t := ResolveSearchType(req.searchType).value;
    SearchTypeAnyCase(t, s);
    ValidationSteps(catalog, req);
    ValidationSteps(catalog, req.(searchType := s));
  }

  // ---------------------------------------------------------------------------
  // The fixed order of the checks; the first failing check decides the error

  /** The ordering is rejected exactly when it names none of the type's orderings, listing only those. */
  lemma OrderChecked(catalog: Catalog, t: SearchType, req: Request)
    requires ResolvesTo(req, t)
    ensures (Validate(catalog, req).Failure? && Validate(catalog, req).error.message.InvalidOrderType?) <==> !OrderAccepted(catalog, t, req)
    ensures !OrderAccepted(catalog, t, req) ==>
              Validate(catalog, req) == Failure(ErrorRecord(ErrorCode, InvalidOrderType(req.orderType.value), Some(ValidList(ValidOrders, OrderTable(catalog, t).value))))
  {
    SearchTypeAnyCase(t, req.searchType);
    ValidationSteps(catalog, req);
  }

  /** Once the ordering is accepted, the zone is rejected exactly when a video search names an unknown zone. */
  lemma ZoneChecked(catalog: Catalog, t: SearchType, req: Request)
    requires ResolvesTo(req, t)
    requires OrderAccepted(catalog, t, req)
    ensures (Validate(catalog, req).Failure? && Validate(catalog, req).error.message.InvalidZoneType?) <==> !ZoneAccepted(catalog, t, req)
    ensures !ZoneAccepted(catalog, t, req) ==>
              Validate(catalog, req) == Failure(ErrorRecord(ErrorCode, InvalidZoneType(req.videoZoneType.value), Some(ValidList(ValidZoneTypes, catalog.zoneTypes))))
  {
    SearchTypeAnyCase(t, req.searchType);
    ValidationSteps(catalog, req);
  }

  /** Once ordering and zone are accepted, the category is rejected exactly when it is a name the type does not have. */
  lemma CategoryChecked(catalog: Catalog, t: SearchType, req: Request)
    requires ResolvesTo(req, t)
    requires OrderAccepted(catalog, t, req) && ZoneAccepted(catalog, t, req)
    ensures (Validate(catalog, req).Failure? && Validate(catalog, req).error.message.InvalidCategory?) <==> !CategoryAccepted(catalog, t, req)
    ensures !CategoryAccepted(catalog, t, req) ==>
              Validate(catalog, req) == Failure(ErrorRecord(ErrorCode, InvalidCategory(req.categoryId.value), Some(ValidList(ValidCategories, CategoryNames(CategoryTable(catalog, t).value)))))
  {
    SearchTypeAnyCase(t, req.searchType);
    ValidationSteps(catalog, req);
    assert ResolveOrder(catalog, t, req.orderType).Success?;
    assert ResolveZone(catalog, t, req.videoZoneType).Success?;
  }

  /** Once everything else is accepted, the request fails exactly when the date check fails, with no list of names. */
  lemma DatesChecked(catalog: Catalog, t: SearchType, req: Request)
    requires ResolvesTo(req, t)
    requires OrderAccepted(catalog, t, req) && ZoneAccepted(catalog, t, req) && CategoryAccepted(catalog, t, req)
    ensures Validate(catalog, req).Failure? <==> !DatesAccepted(req)
    ensures !DatesAccepted(req) ==> Validate(catalog, req) == Failure(ErrorRecord(ErrorCode, BadDateFormat, None))
  {
    SearchTypeAnyCase(t, req.searchType);
    ValidationSteps(catalog, req);
    assert ResolveOrder(catalog, t, req.orderType).Success?;
    assert ResolveZone(catalog, t, req.videoZoneType).Success?;
    assert ResolveCategory(catalog, t, req.categoryId).Success?;
  }

  /** A request passes exactly when every check accepts it. */
  lemma AcceptedExactly(catalog: Catalog, t: SearchType, req: Request)
    requires ResolvesTo(req, t)
    ensures Validate(catalog, req).Success? <==>
              OrderAccepted(catalog, t, req) && ZoneAccepted(catalog, t, req) && CategoryAccepted(catalog, t, req) && DatesAccepted(req)
  {
    SearchTypeAnyCase(t, req.searchType);
    ValidationSteps(catalog, req);
  }

  /** An accepted request is forwarded as the call resolved from it. */
  lemma ForwardedCall(catalog: Catalog, t: SearchType, req: Request)
    requires ResolvesTo(req, t)
    requires Validate(catalog, req).Success?
    ensures ResolvedFrom(catalog, t, req, Validate(catalog, req).value)
  {
    SearchTypeAnyCase(t, req.searchType);
    ValidationSteps(catalog, req);
    var order := ResolveOrder(catalog, t, req.orderType);
    var zone := ResolveZone(catalog, t, req.videoZoneType);
    var category := ResolveCategory(catalog, t, req.categoryId);
    assert order.Success? && zone.Success? && category.Success?;
    var call := Validate(catalog, req).value;
    assert call.searchType == t && call.orderType == order.value && call.videoZoneType == zone.value;
    assert call.categoryId == category.value;
  }

  /** The category value of a resolved call is determined by the request: at most one value is resolved from it. */
  lemma CategoryValueDetermined(catalog: Catalog, t: SearchType, arg: Option<CategoryArg>, v: Option<int>, w: Option<int>)
    requires CategoryResolved(catalog, t, arg, v) && CategoryResolved(catalog, t, arg, w)
    ensures v == w
  {
  }

  // ---------------------------------------------------------------------------
  // Arguments that are never consulted

  /** For a type without orderings, whatever ordering is given changes nothing. */
  lemma OrderIgnoredWithoutTable(catalog: Catalog, t: SearchType, req: Request, orderType: Option<string>)
    requires ResolvesTo(req, t)
    requires OrderTable(catalog, t).None?
    ensures Validate(catalog, req.(orderType := orderType)) == Validate(catalog, req.(orderType := None))
  {
    SearchTypeAnyCase(t, req.searchType);
    ValidationSteps(catalog, req.(orderType := orderType));
    ValidationSteps(catalog, req.(orderType := None));
  }

  /** For a search other than a video search, whatever zone is given changes nothing. */
  lemma ZoneIgnoredUnlessVideo(catalog: Catalog, t: SearchType, req: Request, zoneType: Option<string>)
    requires ResolvesTo(req, t)
    requires t != Video
    ensures Validate(catalog, req.(videoZoneType := zoneType)) == Validate(catalog, req.(videoZoneType := None))
  {
    SearchTypeAnyCase(t, req.searchType);
    ValidationSteps(catalog, req.(videoZoneType := zoneType));
    ValidationSteps(catalog, req.(videoZoneType := None));
  }

  /** For a search other than an article or photo search, whatever category is given changes nothing. */
  lemma CategoryIgnoredUnlessArticleOrPhoto(catalog: Catalog, t: SearchType, req: Request, categoryId: Option<CategoryArg>)
    requires ResolvesTo(req, t)
    requires CategoryTable(catalog, t).None?
    ensures Validate(catalog, req.(categoryId := categoryId)) == Validate(catalog, req.(categoryId := None))
  {
    SearchTypeAnyCase(t, req.searchType);
    ValidationSteps(catalog, req.(categoryId := categoryId));
    ValidationSteps(catalog, req.(categoryId := None));
  }

  /** An empty ordering or zone, and a category of `0` or `""`, count as absent. */
  lemma EmptyArgumentsIgnored(catalog: Catalog, req: Request)
    ensures Validate(catalog, req.(orderType := Some(""))) == Validate(catalog, req.(orderType := None))
    ensures Validate(catalog, req.(videoZoneType := Some(""))) == Validate(catalog, req.(videoZoneType := None))
    ensures Validate(catalog, req.(categoryId := Some(CategoryInt(0)))) == Validate(catalog, req.(categoryId := None))
    ensures Validate(catalog, req.(categoryId := Some(CategoryName("")))) == Validate(catalog, req.(categoryId := None))
  {
    ValidationSteps(catalog, req.(orderType := Some("")));
    ValidationSteps(catalog, req.(orderType := None));
    ValidationSteps(catalog, req.(videoZoneType := Some("")));
    ValidationSteps(catalog, req.(videoZoneType := None));
    ValidationSteps(catalog, req.(categoryId := Some(CategoryInt(0))));
    ValidationSteps(catalog, req.(categoryId := Some(CategoryName(""))));
    ValidationSteps(catalog, req.(categoryId := None));
  }

  /** A single date, without the other, is never checked. */
  lemma LoneDateNotChecked(catalog: Catalog, req: Request)
    requires !Supplied(req.timeStart) || !Supplied(req.timeEnd)
    ensures Validate(catalog, req).Failure? ==> Validate(catalog, req).error.message != BadDateFormat
  {
    ValidationSteps(catalog, req);
  }

  // ---------------------------------------------------------------------------
  // The client call

  /** A rejected request never reaches the client: the response is the same whatever the client does. */
  lemma RejectedRequestNeverReachesClient<P>(catalog: Catalog, req: Request, client: SearchCall -> ClientOutcome<P>, other: SearchCall -> ClientOutcome<P>)
    requires Validate(catalog, req).Failure?
    ensures SearchByType(catalog, req, client) == SearchByType(catalog, req, other) == Error(Validate(catalog, req).error)
  {
  }

  /** An accepted request reaches the client as the resolved call and nothing else. */
  lemma ClientSeesResolvedCall<P>(catalog: Catalog, req: Request, client: SearchCall -> ClientOutcome<P>, other: SearchCall -> ClientOutcome<P>)
    requires Validate(catalog, req).Success?
    requires client(Validate(catalog, req).value) == other(Validate(catalog, req).value)
    ensures SearchByType(catalog, req, client) == SearchByType(catalog, req, other)
  {
  }

  /** The client's payload is returned unchanged, and an exception becomes an error record without a list. */
  lemma ClientOutcomeReported<P>(catalog: Catalog, req: Request, client: SearchCall -> ClientOutcome<P>)
    requires Validate(catalog, req).Success?
    ensures client(Validate(catalog, req).value).Returned? ==>
              SearchByType(catalog, req, client) == Payload(client(Validate(catalog, req).value).payload)
    ensures client(Validate(catalog, req).value).Raised? ==>
              SearchByType(catalog, req, client) == Error(ErrorRecord(ErrorCode, SearchFailed(client(Validate(catalog, req).value).reason), None))
  {
  }
}
