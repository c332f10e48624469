# search_by_type, modelled in Dafny

This project models the `search_by_type` tool of the Bilibili MCP server. The
tool takes a keyword and a loosely typed set of search arguments. It turns them
into the enumerations of the Bilibili search client in a fixed order:

1. the search type, checked case-insensitively against the nine `SearchObjectType` names;
2. the ordering, looked up in the ordering enumeration of that search type;
3. the video zone, for video searches only;
4. the category, for article and photo searches only. An integer is kept as it is. A name is replaced by the numeric value of its enumeration member;
5. the two dates, which are checked only when both are given.

The first step that fails ends the call. The tool then returns an error record:
`code` -1, a message, and (except for the date check) the list of names it
would have accepted. When every step passes, the tool calls the client's typed
search and returns the client's payload unchanged. If the client raises an
`Exception`, the tool returns an error record with `code` -1 instead.

Files:

- `wrappers.dfy`: `Option` and a `Result` that supports `:-`.
- `text.dfy`: ASCII upper/lower casing and `str.count` for one character.
- `enums.dfy`: the nine search types and their names. It also has the `Catalog`, which holds the client's ordering, zone and category enumerations as parameters. `IndexOf` models a `getattr` name lookup.
- `search_tool.dfy`: the tool itself. The five steps are functions returning `Result`. `Validate` chains them with `:-`. `SearchByType` adds the client call. The client is a function parameter.
- `search_tool_spec.dfy`: what the tool promises, stated per search type, with the proofs.
- `search_tool_scenarios.dfy`: concrete arguments against a catalog that carries the documented ordering and category names.

The tool compares `search_type.upper()` with literal names such as `"VIDEO"`
again and again. The model resolves the search type once and then branches on
the resolved `SearchType`. `SearchTool.DispatchByName` proves that the two
forms agree.

Orderings are matched by exact upper-cased name, with no correction of
spelling. `"publate"` upper-cases to `PUBLATE`, which is not a member of
`OrderVideo`, so it is rejected rather than taken as `PUBDATE`. This is what
`SearchToolScenarios.MisspeltOrderRejected` states.

## Model

| member | source | states |
|---|---|---|
| Enums.IndexOf | src/tools/search.py:117 | A name lookup finds a position exactly when the name is present. The position holds that name, and no earlier position does. |
| Enums.CategoryNames | src/tools/search.py:185-187 | The listed category names are the members' names, one for each member, in declaration order. |
| Enums.TypeNamesEnumerateTypes | src/tools/search.py:122 | The `valid_types` list has nine distinct names, one for each search type, in declaration order. |
| Enums.NameInjective | src/tools/search.py:117 | Two search types with the same name are the same type. |
| Text.UpperOfUpperCase | src/tools/search.py:117 | Upper-casing leaves a name that is already upper case unchanged. |
| Text.UpperIgnoresCase | src/tools/search.py:117 | Upper-casing the lower-cased form of a string gives the same result as upper-casing the string. |
| Text.Count | src/tools/search.py:199 | The count of a character is at most the length of the string. It is zero exactly when the character does not occur. |
| Text.CountIsOccurrences | src/tools/search.py:199 | The count of a character is the number of its occurrences in the string, which is what `str.count` returns. |
| SearchTool.ResolveSearchType | src/tools/search.py:116-123 | A search type is accepted exactly when its upper-cased form is one of the nine names, and it resolves to the type of that name. Otherwise the error quotes the argument and lists all nine names. |
| SearchTool.DispatchByName | src/tools/search.py:129-150 | Once the search type has resolved, comparing the upper-cased argument with "VIDEO", "USER", "LIVE"/"LIVEUSER", "ARTICLE" or "PHOTO" is the same as testing the resolved type. |
| SearchTool.ResolveOrder | src/tools/search.py:126-156 | A non-empty ordering fails exactly when the type has an ordering enumeration and the upper-cased ordering is not in it. The error then lists exactly that type's orderings. On success the value is that enumeration's member of the upper-cased name, or none when the ordering is empty or the type has no enumeration. |
| SearchTool.ResolveZone | src/tools/search.py:159-168 | A zone fails exactly when it is non-empty, the search is a video search and the upper-cased zone is not a zone name. The error then lists every zone name. On success the value is the zone member for a non-empty zone of a video search, and none otherwise. |
| SearchTool.ResolveCategory | src/tools/search.py:171-193 | A category is consulted only when it is truthy and the type is article or photo. A name fails exactly when its upper-cased form is not one of that type's category names. The error then lists those names. On success an integer is forwarded unchanged and a name becomes the numeric value of the first member with the upper-cased name. Everything else forwards none. |
| SearchTool.CheckDates | src/tools/search.py:195-200 | The dates fail exactly when both are non-empty and one of them does not contain exactly two `-`. The error carries no list of names. |
| SearchTool.Validate | src/tools/search.py:115-202 | Every error has code -1. An error carries no list exactly when it is the date error. An accepted request resolves to the type named by its upper-cased search type. It forwards keyword, time range, sort direction, both dates, page and page size unchanged. |
| SearchTool.SearchByType | src/tools/search.py:204-221 | Every error has code -1. A request that fails validation returns that validation error. |
| SearchToolSpec.ValidationSteps | src/tools/search.py:115-218 | The result is the error of the first failing step, in the order search type, ordering, zone, category, dates. Otherwise it is the call assembled from the values the steps resolved. |
| SearchToolSpec.NameIsUpperCase | src/tools/search.py:78-86 | Every search type name is written in upper case. |
| SearchToolSpec.SearchTypeAnyCase | src/tools/search.py:116-117 | Any spelling whose upper-cased form is a type's name resolves to that type. |
| SearchToolSpec.LowerCaseTypeResolves | src/tools/search.py:116-117 | The all-lower-case spelling of each of the nine names resolves to its type. |
| SearchToolSpec.SearchTypeChecked | src/tools/search.py:116-123 | A request fails with the search-type error, listing the nine names, if and only if its search type is unknown. |
| SearchToolSpec.SearchTypeCaseInsensitive | src/tools/search.py:116-117 | Two spellings of a known search type that differ only in case give identical results. |
| SearchToolSpec.OrderChecked | src/tools/search.py:126-156 | A request fails with an ordering error if and only if it names an ordering that its type's enumeration lacks. The error lists only that type's orderings. |
| SearchToolSpec.ZoneChecked | src/tools/search.py:159-168 | Once the ordering is accepted, a request fails with a zone error if and only if it is a video search naming an unknown zone. The error lists every zone name. |
| SearchToolSpec.CategoryChecked | src/tools/search.py:171-193 | Once ordering and zone are accepted, a request fails with a category error if and only if an article or photo search names an unknown category. The error lists that type's category names. |
| SearchToolSpec.DatesChecked | src/tools/search.py:195-200 | Once the other arguments are accepted, a request fails if and only if both dates are given and one lacks exactly two `-`. The error then has no list. |
| SearchToolSpec.AcceptedExactly | src/tools/search.py:115-202 | A request with a known search type passes validation if and only if its ordering, zone, category and dates are each accepted. |
| SearchToolSpec.ForwardedCall | src/tools/search.py:204-218 | An accepted request becomes a call with the resolved type, ordering member, zone member and category value, with every other argument unchanged. |
| SearchToolSpec.CategoryValueDetermined | src/tools/search.py:177-181 | At most one category value is resolved from a request, so the forwarded value is fixed by the request and the catalog. |
| SearchToolSpec.OrderIgnoredWithoutTable | src/tools/search.py:127-140 | For bangumi, film, topic and photo searches, any ordering gives the same result as none. |
| SearchToolSpec.ZoneIgnoredUnlessVideo | src/tools/search.py:160 | For any search other than a video search, any zone gives the same result as none. |
| SearchToolSpec.CategoryIgnoredUnlessArticleOrPhoto | src/tools/search.py:172 | For any search other than an article or photo search, any category gives the same result as none. |
| SearchToolSpec.EmptyArgumentsIgnored | src/tools/search.py:127 | An empty ordering, an empty zone, and a category of `0` or `""` each give the same result as the argument left out. |
| SearchToolSpec.LoneDateNotChecked | src/tools/search.py:196 | With only one date given, no request fails with the date error. |
| SearchToolSpec.RejectedRequestNeverReachesClient | src/tools/search.py:119-202 | A request that fails validation gets its validation error whatever the client would do, so the client is not consulted. |
| SearchToolSpec.ClientSeesResolvedCall | src/tools/search.py:206-218 | For an accepted request, the response depends only on what the client does with the resolved call. |
| SearchToolSpec.ClientOutcomeReported | src/tools/search.py:219-221 | The client's payload is returned unchanged. A client exception becomes an error record with code -1 that quotes the exception and has no list. |
| SearchToolScenarios.UnknownSearchTypeListsNine | src/tools/search.py:117-123 | "movie" is rejected with the nine type names, whatever the other arguments are. |
| SearchToolScenarios.VideoOrderAnyCase | src/tools/search.py:129-131 | A video search written "video" with ordering "pubdate" forwards the video type and `OrderVideo.PUBDATE`. |
| SearchToolScenarios.MisspeltOrderRejected | src/tools/search.py:131-156 | Ordering "publate" on a video search is rejected with the six video orderings. |
| SearchToolScenarios.ArticleOrderRejectedForVideo | src/tools/search.py:131-156 | The article-only ordering "ATTENTION" is rejected for a video search with the six video orderings. |
| SearchToolScenarios.TopicIgnoresOrdering | src/tools/search.py:127-140 | A topic search with an ordering is accepted and forwards no ordering. |
| SearchToolScenarios.NumericCategoryForwarded | src/tools/search.py:173-174 | The integer category 5 on an article search is forwarded as 5. |
| SearchToolScenarios.NamedCategoryResolved | src/tools/search.py:177-181 | The category "life" on an article search is forwarded as the numeric value of the `LIFE` member. |
| SearchToolScenarios.ArticleCategoryRejectedForPhoto | src/tools/search.py:179-193 | The article category "LIFE" is rejected for a photo search with the three photo categories. |
| SearchToolScenarios.DigitStringCategoryRejected | src/tools/search.py:175-193 | The string "5" is looked up as a name, not used as a number, and is rejected with the article categories. |
| SearchToolScenarios.SlashDateRejected | src/tools/search.py:196-200 | An end date written with `/` is rejected with the date error. |
| SearchToolScenarios.LoneMalformedDateForwarded | src/tools/search.py:196-217 | A malformed start date without an end date is forwarded unchanged. |
| SearchToolScenarios.DefaultsForwarded | src/tools/search.py:59-71 | A video search with every optional argument left at its default forwards time range -1, page 1, page size 42 and nothing else. |

## Left out

- The other tools in `src/tools/search.py` (`general_search`, `get_default_search_keyword`, `get_hot_search_keywords`, `get_suggest_keywords`, `search_games`, `search_mangasearch_manga`, `search_cheese`) only forward their arguments to the client and return its result. They do no validation, so they are not modelled.
- Tool and server registration (`src/tools/register.py`, `src/main.py`, `bilibili_mcp_server.py`) is wiring only.
- The client's asynchronous network search is a function parameter. The model only describes what the tool does with its payload or exception.
- The member lists of the client's ordering, video-zone and category enumerations belong to the client library, which is not part of this model. They are parameters (`Catalog`). The nine search type names are fixed, since the tool relies on them by name.
- Upper-casing is ASCII only. Python's `str.upper` also maps non-ASCII letters (for example `ß` to `SS`), and the model does not capture that.
- An exception that is not an `Exception` (a `BaseException` such as `asyncio.CancelledError` or `KeyboardInterrupt`) is not caught at src/tools/search.py:220 and propagates out of the tool. The model has no such outcome: `ClientOutcome` only returns or raises an `Exception`.
- Error messages are tags that carry the quoted argument. The Chinese message text is not modelled.
- The `except Exception` around the date check (src/tools/search.py:201-202) cannot be reached, because both dates are non-empty strings at that point. It is not modelled.
- A Python `bool` passed as `category_id` counts as an `int`. The model has no separate case for it: `True` behaves as the integer 1.
- `getattr` on an enumeration class also finds non-member attributes and aliases. The model finds only member names.
- SearchTool.ResolveZone: returns the zone member by its upper-cased name. It does not model the member's value, which only the client reads.
- SearchToolScenarios.NamedCategoryResolved: states that the forwarded value belongs to the member named `LIFE`. It does not fix the numeric value itself, which belongs to the client library.
