/**
 * Concrete arguments against a catalog whose ordering and category names are
 * the ones the tool's documentation lists. The numeric category values and
 * the video zones stay unspecified, and so does every argument a scenario
 * does not name.
 */
module SearchToolScenarios {
  import opened Wrappers
  import opened Text
  import opened Enums
  import opened SearchTool
  import opened SearchToolSpec

  const VideoOrders: seq<string> := ["TOTALRANK", "PUBDATE", "CLICK", "DM", "STOW", "SCORES"]
  const ArticleOrders: seq<string> := ["TOTALRANK", "PUBDATE", "CLICK", "ATTENTION", "SCORES"]
  const ArticleCategoryNames: seq<string> := ["ALL", "ANIME", "GAME", "TV", "LIFE", "HOBBY", "LIGHTNOVEL", "TECHNOLOGY"]
  const PhotoCategoryNames: seq<string> := ["ALL", "DRAWFRIEND", "PHOTOFRIEND"]

  /** The ordering and category names are those of the tool's documentation. */
  predicate Documented(catalog: Catalog) {
    && catalog.orderVideo == VideoOrders
    && catalog.orderUser == ["FANS", "LEVEL"]
    && catalog.orderLiveRoom == ["NEWLIVE", "ONLINE"]
    && catalog.orderArticle == ArticleOrders
    && CategoryNames(catalog.articleCategories) == ArticleCategoryNames
    && CategoryNames(catalog.photoCategories) == PhotoCategoryNames
  }

  /** An unknown search type lists the nine type names, whatever else is given. */
  lemma UnknownSearchTypeListsNine(catalog: Catalog, req: Request)
    requires req.searchType == "movie"
    ensures Validate(catalog, req) == Failure(ErrorRecord(ErrorCode, InvalidSearchType("movie"), Some(ValidList(ValidTypes, TypeNames))))
  {
    assert Upper("movie") == "MOVIE";
    assert "MOVIE" !in TypeNames;
    SearchTypeChecked(catalog, req);
  }

  /** A video ordering written in lower case resolves to the `OrderVideo` member. */
  lemma VideoOrderAnyCase(catalog: Catalog, req: Request)
    requires Documented(catalog)
    requires req.searchType == "video" && req.orderType == Some("pubdate")
    requires req.videoZoneType == None && req.categoryId == None && req.timeStart == None
    ensures Validate(catalog, req).Success?
    ensures Validate(catalog, req).value.searchType == Video
    ensures Validate(catalog, req).value.orderType == Some(OrderVideo("PUBDATE"))
  {
    assert Upper("video") == "VIDEO";
    assert Upper("pubdate") == "PUBDATE";
    AcceptedExactly(catalog, Video, req);
    ForwardedCall(catalog, Video, req);
  }

  /** A misspelt ordering is rejected with the video orderings. */
  lemma MisspeltOrderRejected(catalog: Catalog, req: Request)
    requires Documented(catalog)
    requires req.searchType == "VIDEO" && req.orderType == Some("publate")
    ensures Validate(catalog, req) == Failure(ErrorRecord(ErrorCode, InvalidOrderType("publate"), Some(ValidList(ValidOrders, VideoOrders))))
  {
    assert Upper("VIDEO") == "VIDEO";
    assert Upper("publate") == "PUBLATE";
    assert "PUBLATE" !in VideoOrders;
    OrderChecked(catalog, Video, req);
  }

  /** An article ordering is not a video ordering, and the error lists the six video orderings only. */
  lemma ArticleOrderRejectedForVideo(catalog: Catalog, req: Request)
    requires Documented(catalog)
    requires req.searchType == "VIDEO" && req.orderType == Some("ATTENTION")
    ensures Validate(catalog, req) == Failure(ErrorRecord(ErrorCode, InvalidOrderType("ATTENTION"), Some(ValidList(ValidOrders, VideoOrders))))
  {
    assert Upper("VIDEO") == "VIDEO";
    assert Upper("ATTENTION") == "ATTENTION";
    assert "ATTENTION" !in VideoOrders;
    OrderChecked(catalog, Video, req);
  }

  /** A topic search ignores any ordering and forwards none. */
  lemma TopicIgnoresOrdering(catalog: Catalog, req: Request)
    requires req.searchType == "topic" && req.orderType == Some("nonsense")
    requires req.categoryId == None && req.timeStart == None
    ensures Validate(catalog, req).Success?
    ensures Validate(catalog, req).value.orderType == None
  {
    assert Upper("topic") == "TOPIC";
    AcceptedExactly(catalog, Topic, req);
    ForwardedCall(catalog, Topic, req);
  }

  /** An integer category of an article search is forwarded as it is. */
  lemma NumericCategoryForwarded(catalog: Catalog, req: Request)
    requires req.searchType == "ARTICLE" && req.categoryId == Some(CategoryInt(5))
    requires req.orderType == None && req.timeStart == None
    ensures Validate(catalog, req).Success?
    ensures Validate(catalog, req).value.categoryId == Some(5)
  {
    assert Upper("ARTICLE") == "ARTICLE";
    AcceptedExactly(catalog, Article, req);
    ForwardedCall(catalog, Article, req);
  }

  /** A category name of an article search is replaced by the numeric value of the member of that name. */
  lemma NamedCategoryResolved(catalog: Catalog, req: Request)
    requires Documented(catalog)
    requires req.searchType == "ARTICLE" && req.categoryId == Some(CategoryName("life"))
    requires req.orderType == None && req.timeStart == None
    ensures Validate(catalog, req).Success?
    ensures Validate(catalog, req).value.categoryId.Some?
    ensures Category("LIFE", Validate(catalog, req).value.categoryId.value) in catalog.articleCategories
  {
    assert Upper("ARTICLE") == "ARTICLE";
    assert Upper("life") == "LIFE";
    assert CategoryNames(catalog.articleCategories)[4] == "LIFE";
    assert CategoryAccepted(catalog, Article, req);
    AcceptedExactly(catalog, Article, req);
    ForwardedCall(catalog, Article, req);
  }

  /** An article category is not a photo category, and the error lists the photo categories only. */
  lemma ArticleCategoryRejectedForPhoto(catalog: Catalog, req: Request)
    requires Documented(catalog)
    requires req.searchType == "PHOTO" && req.categoryId == Some(CategoryName("LIFE"))
    ensures Validate(catalog, req) == Failure(ErrorRecord(ErrorCode, InvalidCategory(CategoryName("LIFE")), Some(ValidList(ValidCategories, PhotoCategoryNames))))
  {
    assert Upper("PHOTO") == "PHOTO";
    assert Upper("LIFE") == "LIFE";
    assert "LIFE" !in PhotoCategoryNames;
    assert CategoryTable(catalog, Photo) == Some(catalog.photoCategories);
    assert !CategoryAccepted(catalog, Photo, req);
    CategoryChecked(catalog, Photo, req);
  }

  /** A string of digits is looked up as a name, not forwarded as a number. */
  lemma DigitStringCategoryRejected(catalog: Catalog, req: Request)
    requires Documented(catalog)
    requires req.searchType == "ARTICLE" && req.categoryId == Some(CategoryName("5")) && req.orderType == None
    ensures Validate(catalog, req) == Failure(ErrorRecord(ErrorCode, InvalidCategory(CategoryName("5")), Some(ValidList(ValidCategories, ArticleCategoryNames))))
  {
    assert Upper("ARTICLE") == "ARTICLE";
    assert Upper("5") == "5";
    assert "5" !in ArticleCategoryNames;
    assert CategoryTable(catalog, Article) == Some(catalog.articleCategories);
    assert !CategoryAccepted(catalog, Article, req);
    CategoryChecked(catalog, Article, req);
  }

  /** A date written with `/` is rejected, so nothing is forwarded. */
  lemma SlashDateRejected(catalog: Catalog, req: Request)
    requires req.searchType == "VIDEO" && req.orderType == None && req.videoZoneType == None
    requires req.timeStart == Some("2024-01-01") && req.timeEnd == Some("2024/02/01")
    ensures Validate(catalog, req) == Failure(ErrorRecord(ErrorCode, BadDateFormat, None))
  {
    assert Upper("VIDEO") == "VIDEO";
    assert '-' !in "2024/02/01";
    assert !DatesAccepted(req);
    DatesChecked(catalog, Video, req);
  }

  /** A malformed start date alone is never checked and is forwarded unchanged. */
  lemma LoneMalformedDateForwarded(catalog: Catalog, req: Request)
    requires req.searchType == "VIDEO" && req.orderType == None && req.videoZoneType == None
    requires req.timeStart == Some("2024/01/01") && req.timeEnd == None
    ensures Validate(catalog, req).Success?
    ensures Validate(catalog, req).value.timeStart == Some("2024/01/01")
  {
    assert Upper("VIDEO") == "VIDEO";
    AcceptedExactly(catalog, Video, req);
    ForwardedCall(catalog, Video, req);
  }

  /** A video search with every optional argument left at its default forwards those defaults. */
  lemma DefaultsForwarded(catalog: Catalog, keyword: string)
    ensures Validate(catalog, DefaultRequest(keyword, "video")) == Success(SearchCall(keyword, Video, None, None, -1, None, None, None, None, 1, 42))
  {
    var req := DefaultRequest(keyword, "video");
    assert Upper("video") == "VIDEO";
    AcceptedExactly(catalog, Video, req);
    ForwardedCall(catalog, Video, req);
  }
}
