/**
 * The `search_by_type` tool: it validates loosely typed arguments, translates
 * them into the search client's enumerations in a fixed order (search type,
 * ordering, video zone, category, dates), stops at the first invalid one with
 * an error record, and only then calls the client, turning any exception it
 * raises into an error record as well.
 */
module SearchTool {
  import opened Wrappers
  import opened Text
  import opened Enums

  /** The `code` of every error record the tool produces. */
  const ErrorCode: int := -1

  /** A `category_id` argument: Python's `str | int`. */
  datatype CategoryArg = CategoryInt(id: int) | CategoryName(name: string)

  /** The tool's arguments; an absent optional argument is `None`. */
  datatype Request = Request(
    keyword: string,
    searchType: string,
    orderType: Option<string>,
    timeRange: int,
    videoZoneType: Option<string>,
    orderSort: Option<int>,
    categoryId: Option<CategoryArg>,
    timeStart: Option<string>,
    timeEnd: Option<string>,
    page: int,
    pageSize: int)

  /** A request with the tool's default values for every optional argument. */
  function DefaultRequest(keyword: string, searchType: string): Request {
    Request(keyword, searchType, None, -1, None, None, None, None, None, 1, 42)
  }

  /** The arguments handed to the client's typed search once validation passed. */
  datatype SearchCall = SearchCall(
    keyword: string,
    searchType: SearchType,
    orderType: Option<OrderMember>,
    orderSort: Option<int>,
    timeRange: int,
    videoZoneType: Option<string>,
    categoryId: Option<int>,
    timeStart: Option<string>,
    timeEnd: Option<string>,
    page: int,
    pageSize: int)

  /** The message of an error record, as a tag carrying the value it quotes. */
  datatype Message =
    | InvalidSearchType(searchType: string)
    | InvalidOrderType(orderType: string)
    | InvalidZoneType(zoneType: string)
    | InvalidCategory(category: CategoryArg)
    | BadDateFormat
    | SearchFailed(reason: string)

  /** The key of the list of accepted names an error record carries. */
  datatype ValidField = ValidTypes | ValidOrders | ValidZoneTypes | ValidCategories

  /** `{"valid_<field>": names}`. */
  datatype ValidList = ValidList(field: ValidField, names: seq<string>)

  /** `{"code": code, "message": message}`, with a list of accepted names or without one. */
  datatype ErrorRecord = ErrorRecord(code: int, message: Message, valid: Option<ValidList>)

  /** What the client's typed search does with a call: returns a payload or raises an `Exception`. */
  datatype ClientOutcome<P> = Returned(payload: P) | Raised(reason: string)

  /** What the tool returns: the client's payload unchanged, or an error record. */
  datatype Response<P> = Payload(payload: P) | Error(error: ErrorRecord)

  /** Python truthiness of an optional string: present and non-empty. */
  predicate Supplied(s: Option<string>) {
    s.Some? && s.value != ""
  }

  /** Python truthiness of an optional `str | int`: present, non-empty and non-zero. */
  predicate CategorySupplied(c: Option<CategoryArg>) {
    match c
    case None => false
    case Some(CategoryInt(id)) => id != 0
    case Some(CategoryName(name)) => name != ""
  }

  /** Step 1: the search type, looked up case-insensitively among the nine type names. */
  function ResolveSearchType(searchType: string): (r: Result<SearchType, ErrorRecord>)
    ensures r.Success? <==> Upper(searchType) in TypeNames
    ensures r.Success? ==> Name(r.value) == Upper(searchType)
    ensures r.Failure? ==> r.error == ErrorRecord(ErrorCode, InvalidSearchType(searchType), Some(ValidList(ValidTypes, TypeNames)))
  {
    TypeNamesEnumerateTypes();
    match IndexOf(TypeNames, Upper(searchType))
    case Some(i) => Success(AllTypes[i])
    case None => Failure(ErrorRecord(ErrorCode, InvalidSearchType(searchType), Some(ValidList(ValidTypes, TypeNames))))
  }

  /**
   * After step 1 the tool tells search types apart by comparing the upper-cased
   * argument with type names; once step 1 succeeded those comparisons are
   * comparisons of the resolved type, which is how steps 2 to 4 are written.
   */
  lemma DispatchByName(searchType: string, t: SearchType)
    requires ResolveSearchType(searchType) == Success(t)
    ensures Upper(searchType) == "VIDEO" <==> t == Video
    ensures Upper(searchType) == "USER" <==> t == User
    ensures Upper(searchType) == "LIVE" || Upper(searchType) == "LIVEUSER" <==> t == Live || t == LiveUser
    ensures Upper(searchType) == "ARTICLE" <==> t == Article
    ensures Upper(searchType) == "PHOTO" <==> t == Photo
  {
  }

  /**
   * The ordering enumeration of a search type: `OrderVideo` for video searches,
   * `OrderUser` for user searches, `OrderLiveRoom` for live-room and live-user
   * searches, `OrderArticle` for article searches, and none for the others.
   */
  function OrderTable(catalog: Catalog, t: SearchType): Option<seq<string>> {
    match t
    case Video => Some(catalog.orderVideo)
    case User => Some(catalog.orderUser)
    case Live | LiveUser => Some(catalog.orderLiveRoom)
    case Article => Some(catalog.orderArticle)
    case _ => None
  }

  /** The member of a search type's ordering enumeration with the given name. */
  function Ordering(t: SearchType, name: string): Option<OrderMember> {
    match t
    case Video => Some(OrderVideo(name))
    case User => Some(OrderUser(name))
    case Live | LiveUser => Some(OrderLiveRoom(name))
    case Article => Some(OrderArticle(name))
    case _ => None
  }

  /** The category enumeration of a search type: article and photo searches have one. */
  function CategoryTable(catalog: Catalog, t: SearchType): Option<seq<Category>> {
    match t
    case Article => Some(catalog.articleCategories)
    case Photo => Some(catalog.photoCategories)
    case _ => None
  }

  /**
   * Step 2: a non-empty ordering is looked up, upper-cased, in the ordering
   * enumeration of the search type; for a type without one it is ignored.
   */
  function ResolveOrder(catalog: Catalog, t: SearchType, orderType: Option<string>): (r: Result<Option<OrderMember>, ErrorRecord>)
    ensures r.Failure? <==> Supplied(orderType) && OrderTable(catalog, t).Some? && Upper(orderType.value) !in OrderTable(catalog, t).value
    ensures r.Success? ==> r.value == if Supplied(orderType) then Ordering(t, Upper(orderType.value)) else None
    ensures r.Failure? ==> r.error == ErrorRecord(ErrorCode, InvalidOrderType(orderType.value), Some(ValidList(ValidOrders, OrderTable(catalog, t).value)))
  {
    if !Supplied(orderType) then Success(None)
    else
      match OrderTable(catalog, t)
      case None => Success(None)
      case Some(names) =>
        var name := Upper(orderType.value);
        if name in names then Success(Ordering(t, name))
        else Failure(ErrorRecord(ErrorCode, InvalidOrderType(orderType.value), Some(ValidList(ValidOrders, names))))
  }

  /** Step 3: a non-empty video zone is looked up, upper-cased, in the zone enumeration, for video searches only. */
  function ResolveZone(catalog: Catalog, t: SearchType, zoneType: Option<string>): (r: Result<Option<string>, ErrorRecord>)
    ensures r.Failure? <==> Supplied(zoneType) && t == Video && Upper(zoneType.value) !in catalog.zoneTypes
    ensures r.Success? ==> r.value == if Supplied(zoneType) && t == Video then Some(Upper(zoneType.value)) else None
    ensures r.Failure? ==> r.error == ErrorRecord(ErrorCode, InvalidZoneType(zoneType.value), Some(ValidList(ValidZoneTypes, catalog.zoneTypes)))
  {
    if Supplied(zoneType) && t == Video then
      var name := Upper(zoneType.value);
      if name in catalog.zoneTypes then Success(Some(name))
      else Failure(ErrorRecord(ErrorCode, InvalidZoneType(zoneType.value), Some(ValidList(ValidZoneTypes, catalog.zoneTypes))))
    else Success(None)
  }

  /**
   * The category value forwarded for a category argument: nothing when the
   * argument is absent, zero or empty or the type has no categories, an integer
   * unchanged, and for a name the value of the first member with the upper-cased
   * name (enumeration member names are distinct, so it is the only one).
   */
  predicate CategoryResolved(catalog: Catalog, t: SearchType, arg: Option<CategoryArg>, value: Option<int>) {
    if !CategorySupplied(arg) || CategoryTable(catalog, t).None? then value == None
    else match arg.value
      case CategoryInt(id) => value == Some(id)
      case CategoryName(name) => value.Some? && FirstMember(CategoryTable(catalog, t).value, Upper(name), value.value)
  }

  /** The first member of `table` named `name` has the value `code`. */
  predicate FirstMember(table: seq<Category>, name: string, code: int) {
    exists j :: 0 <= j < |table| && table[j] == Category(name, code) && name !in CategoryNames(table)[..j]
  }

  /**
   * Step 4: for article and photo searches, a non-zero integer category is
   * forwarded as it is, and a non-empty name is looked up, upper-cased, in the
   * type's category enumeration and replaced by the member's numeric value.
   * A string of digits is a name like any other.
   */
  function ResolveCategory(catalog: Catalog, t: SearchType, categoryId: Option<CategoryArg>): (r: Result<Option<int>, ErrorRecord>)
    ensures r.Success? ==> CategoryResolved(catalog, t, categoryId, r.value)
    ensures r.Failure? <==> CategorySupplied(categoryId) && CategoryTable(catalog, t).Some? && categoryId.value.CategoryName? &&
                            Upper(categoryId.value.name) !in CategoryNames(CategoryTable(catalog, t).value)
    ensures r.Failure? ==>
              r.error == ErrorRecord(ErrorCode, InvalidCategory(categoryId.value), Some(ValidList(ValidCategories, CategoryNames(CategoryTable(catalog, t).value))))
  {
    if !CategorySupplied(categoryId) then Success(None)
    else
      match CategoryTable(catalog, t)
      case None => Success(None)
      case Some(table) =>
        match categoryId.value
        case CategoryInt(id) => Success(Some(id))
        case CategoryName(name) =>
          match IndexOf(CategoryNames(table), Upper(name))
          case Some(j) => Success(Some(table[j].code))
          case None => Failure(ErrorRecord(ErrorCode, InvalidCategory(categoryId.value), Some(ValidList(ValidCategories, CategoryNames(table)))))
  }

  /** Step 5: when both dates are non-empty, each must contain exactly two `-`. */
  function CheckDates(timeStart: Option<string>, timeEnd: Option<string>): (r: Result<(), ErrorRecord>)
    ensures r.Failure? <==> Supplied(timeStart) && Supplied(timeEnd) && (Count(timeStart.value, '-') != 2 || Count(timeEnd.value, '-') != 2)
    ensures r.Failure? ==> r.error == ErrorRecord(ErrorCode, BadDateFormat, None)
  {
    if Supplied(timeStart) && Supplied(timeEnd) && !(Count(timeStart.value, '-') == 2 && Count(timeEnd.value, '-') == 2) then
      Failure(ErrorRecord(ErrorCode, BadDateFormat, None))
    else Success(())
  }

  /**
   * Steps 1 to 5 in order: the first failing step's error record, or the call
   * to hand to the client.
   */
  function Validate(catalog: Catalog, req: Request): (v: Result<SearchCall, ErrorRecord>)
    ensures v.Failure? ==> v.error.code == ErrorCode
    ensures v.Failure? ==> (v.error.valid.None? <==> v.error.message == BadDateFormat)
    ensures v.Success? ==> Name(v.value.searchType) == Upper(req.searchType)
    ensures v.Success? ==> v.value.keyword == req.keyword && v.value.orderSort == req.orderSort && v.value.timeRange == req.timeRange
    ensures v.Success? ==> v.value.timeStart == req.timeStart && v.value.timeEnd == req.timeEnd
    ensures v.Success? ==> v.value.page == req.page && v.value.pageSize == req.pageSize
  {
    var searchType :- ResolveSearchType(req.searchType);
    var orderType :- ResolveOrder(catalog, searchType, req.orderType);
    var zoneType :- ResolveZone(catalog, searchType, req.videoZoneType);
    var categoryId :- ResolveCategory(catalog, searchType, req.categoryId);
    var _ :- CheckDates(req.timeStart, req.timeEnd);
    Success(SearchCall(req.keyword, searchType, orderType, req.orderSort, req.timeRange, zoneType, categoryId,
                       req.timeStart, req.timeEnd, req.page, req.pageSize))
  }

  /**
   * The tool: validation, then the client's typed search on the resolved call.
   * `client` stands for that asynchronous network call.
   */
  function SearchByType<P>(catalog: Catalog, req: Request, client: SearchCall -> ClientOutcome<P>): (r: Response<P>)
    ensures r.Error? ==> r.error.code == ErrorCode
    ensures Validate(catalog, req).Failure? ==> r == Error(Validate(catalog, req).error)
  {
    match Validate(catalog, req)
    case Failure(e) => Error(e)
    case Success(call) =>
      match client(call)
      case Returned(payload) => Payload(payload)
      case Raised(reason) => Error(ErrorRecord(ErrorCode, SearchFailed(reason), None))
  }
}
