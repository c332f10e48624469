/**
 * The enumerations of the external search client that the tool looks names up
 * in. The nine search types are fixed (the tool compares against their names
 * directly); the ordering, zone and category tables belong to the client
 * library and are parameters of the model, gathered in a `Catalog`.
 */
module Enums {
  import opened Wrappers

  /** The client's `SearchObjectType`, in declaration order. */
  datatype SearchType = Video | Bangumi | Ft | Live | Article | Topic | User | LiveUser | Photo

  /** The member name of a search type, as `getattr` looks it up. */
  function Name(t: SearchType): string {
    match t
    case Video => "VIDEO"
    case Bangumi => "BANGUMI"
    case Ft => "FT"
    case Live => "LIVE"
    case Article => "ARTICLE"
    case Topic => "TOPIC"
    case User => "USER"
    case LiveUser => "LIVEUSER"
    case Photo => "PHOTO"
  }

  /** Every search type, in declaration order. */
  const AllTypes: seq<SearchType> := [Video, Bangumi, Ft, Live, Article, Topic, User, LiveUser, Photo]

  /** `[t.name for t in SearchObjectType]`. */
  const TypeNames: seq<string> := ["VIDEO", "BANGUMI", "FT", "LIVE", "ARTICLE", "TOPIC", "USER", "LIVEUSER", "PHOTO"]

  /** The name list enumerates the nine types, each once, in declaration order. */
  lemma TypeNamesEnumerateTypes()
    ensures |TypeNames| == |AllTypes| == 9
    ensures forall i :: 0 <= i < |AllTypes| ==> TypeNames[i] == Name(AllTypes[i])
    ensures forall t :: Name(t) in TypeNames
    ensures forall i, j :: 0 <= i < j < |TypeNames| ==> TypeNames[i] != TypeNames[j]
  {
  }

  /** Distinct search types have distinct names. */
  lemma NameInjective(s: SearchType, t: SearchType)
    requires Name(s) == Name(t)
    ensures s == t
  {
  }

  /** A member of one of the client's category enumerations: its name and numeric value. */
  datatype Category = Category(name: string, code: int)

  /** A resolved ordering: a member of one of the four ordering enumerations, by name. */
  datatype OrderMember =
    | OrderVideo(name: string)
    | OrderUser(name: string)
    | OrderLiveRoom(name: string)
    | OrderArticle(name: string)

  /**
   * The member names of the client's `OrderVideo`, `OrderUser`, `OrderLiveRoom`,
   * `OrderArticle` and `VideoZoneTypes`, and the members of `CategoryTypeArticle`
   * and `CategoryTypePhoto`, each in declaration order.
   */
  datatype Catalog = Catalog(
    orderVideo: seq<string>,
    orderUser: seq<string>,
    orderLiveRoom: seq<string>,
    orderArticle: seq<string>,
    zoneTypes: seq<string>,
    articleCategories: seq<Category>,
    photoCategories: seq<Category>)

  /** `[t.name for t in categories]`. */
  function CategoryNames(categories: seq<Category>): (names: seq<string>)
    ensures |names| == |categories|
    ensures forall i :: 0 <= i < |categories| ==> names[i] == categories[i].name
  {
    seq(|categories|, i requires 0 <= i < |categories| => categories[i].name)
  }

  /**
   * Looks a member name up in a name list, as `getattr` on an enumeration does:
   * the position of the first member with that name, or nothing.
   */
  function IndexOf(names: seq<string>, key: string): (r: Option<nat>)
    ensures r.None? <==> key !in names
    ensures r.Some? ==> r.value < |names| && names[r.value] == key
    ensures r.Some? ==> key !in names[..r.value]
  {
    if names == [] then None
    else if names[0] == key then Some(0)
    else
      match IndexOf(names[1..], key)
      case None => None
      case Some(i) => Some(i + 1)
  }
}
