/**
 * The product grid's query: a `URLSearchParams` built from the defaults and
 * then changed in place by `append` and `set` according to the listing kind
 * and the requested sort. The query is a list of name/value pairs in order;
 * turning it into URL text is not part of this model.
 */
module ProductsList {
  import opened Util
  import UseCart

  /** The parameter names the product query uses. */
  datatype Key = HomePage | StockGt | IsActive | Limit | Skip | Fields | CategoryName | IsFeatured | OfferGt | Sort | CreatedAt
  {
    /** The name as it appears in the query string. */
    function Wire(): string
    {
      match this
      case HomePage => "homePage"
      case StockGt => "stock[gt]"
      case IsActive => "isActive"
      case Limit => "limit"
      case Skip => "skip"
      case Fields => "fields"
      case CategoryName => "category[name]"
      case IsFeatured => "isFeatured"
      case OfferGt => "offer[gt]"
      case Sort => "sort"
      case CreatedAt => "createdAt"
    }
  }

  datatype Param = Param(name: Key, value: string)

  /** A value of Next.js search parameters: one string or a repeated parameter. */
  datatype SearchValue = Text(text: string) | Many(items: seq<string>)

  /** `Record<string, string | string[] | undefined>`; an undefined entry is a missing key. */
  type SearchParams = map<string, SearchValue>

  /** `Array.prototype.join(",")`, what `toString` does to an array. */
  function JoinComma(items: seq<string>): string
  {
    if items == [] then "" else if |items| == 1 then items[0] else items[0] + "," + JoinComma(items[1..])
  }

  /** `value.toString()`. */
  function Rendered(v: SearchValue): string
  {
    match v
    case Text(t) => t
    case Many(items) => JoinComma(items)
  }

  /** JavaScript truthiness of a search value: an empty string is falsy, an array never is. */
  predicate SearchTruthy(v: SearchValue)
  {
    v.Text? ==> v.text != ""
  }

  /** `searchParams?.[key]?.toString() ?? fallback`. */
  function ParamOr(search: SearchParams, key: string, fallback: string): (r: string)
    ensures key !in search ==> r == fallback
    ensures key in search ==> r == Rendered(search[key])
  {
    if key in search then Rendered(search[key]) else fallback
  }

  // ---------------------------------------------------------------------------
  // URLSearchParams, as a list of pairs
  // ---------------------------------------------------------------------------

  /** How many entries carry `name`. */
  function CountName(ps: seq<Param>, name: Key): (n: nat)
    ensures n <= |ps|
  {
    if ps == [] then 0 else (if ps[0].name == name then 1 else 0) + CountName(ps[1..], name)
  }

  predicate HasName(ps: seq<Param>, name: Key)
  {
    CountName(ps, name) > 0
  }

  /** `params.get(name)`: the value of the first entry with that name, or null. */
  function FirstValue(ps: seq<Param>, name: Key): (r: Option<string>)
    ensures r.None? <==> !HasName(ps, name)
    ensures r.Some? ==> Param(name, r.value) in ps
  {
    if ps == [] then None
    else if ps[0].name == name then Some(ps[0].value)
    else FirstValue(ps[1..], name)
  }

  /** The entries whose name is not `name`, in order. */
  function Without(ps: seq<Param>, name: Key): (r: seq<Param>)
    ensures !HasName(r, name)
    ensures forall p :: p in r <==> p in ps && p.name != name
  {
    if ps == [] then []
    else if ps[0].name == name then Without(ps[1..], name)
    else [ps[0]] + Without(ps[1..], name)
  }

  /** The first entry named `name` takes `value`; the later ones are removed. */
  function ReplaceFirst(ps: seq<Param>, name: Key, value: string): seq<Param>
  {
    if ps == [] then []
    else if ps[0].name == name then [Param(name, value)] + Without(ps[1..], name)
    else [ps[0]] + ReplaceFirst(ps[1..], name, value)
  }

  /** `params.set(name, value)`, as the URL standard defines it. */
  function SetParam(ps: seq<Param>, name: Key, value: string): seq<Param>
  {
    if HasName(ps, name) then ReplaceFirst(ps, name, value) else ps + [Param(name, value)]
  }

  /** 1 when the entry carries `name`, else 0. */
  function Hit(p: Param, name: Key): nat
  {
    if p.name == name then 1 else 0
  }

  /** One entry in front of a list: its own hit, then the list's. */
  lemma Cons(p: Param, ps: seq<Param>, name: Key)
    ensures CountName([p] + ps, name) == Hit(p, name) + CountName(ps, name)
    ensures FirstValue([p] + ps, name) == if p.name == name then Some(p.value) else FirstValue(ps, name)
  {
    assert ([p] + ps)[1..] == ps;
  }

  /** A short literal list, entry by entry: how often `name` occurs and its first value. */
  lemma {:induction false} FourEntries(a: Param, b: Param, c: Param, d: Param, name: Key)
    ensures CountName([a, b, c, d], name) == Hit(a, name) + Hit(b, name) + Hit(c, name) + Hit(d, name)
    ensures FirstValue([a, b, c, d], name) ==
      if a.name == name then Some(a.value) else if b.name == name then Some(b.value)
      else if c.name == name then Some(c.value) else if d.name == name then Some(d.value) else None
  {
    Cons(d, [], name);
    Cons(c, [d], name);
    Cons(b, [c, d], name);
    Cons(a, [b, c, d], name);
    assert [d] == [d] + [] && [c, d] == [c] + [d] && [b, c, d] == [b] + [c, d] && [a, b, c, d] == [a] + [b, c, d];
  }

  /** The same for five entries. */
  lemma {:induction false} FiveEntries(a: Param, b: Param, c: Param, d: Param, e: Param, name: Key)
    ensures CountName([a, b, c, d, e], name) == Hit(a, name) + Hit(b, name) + Hit(c, name) + Hit(d, name) + Hit(e, name)
  {
    assert [a, b, c, d, e][1..] == [b, c, d, e];
    FourEntries(b, c, d, e, name);
  }

  /** Removing a name that does not occur changes nothing. */
  lemma {:induction false} WithoutAbsent(ps: seq<Param>, name: Key)
    requires !HasName(ps, name)
    ensures Without(ps, name) == ps
  {
    if ps != [] {
      WithoutAbsent(ps[1..], name);
    }
  }

  /**
   * Replacing in a list that has the name leaves exactly one entry with it,
   * holding the new value, and the entries with other names as they were.
   */
  lemma {:induction false} ReplaceFirstFacts(ps: seq<Param>, name: Key, value: string)
    requires HasName(ps, name)
    ensures CountName(ReplaceFirst(ps, name, value), name) == 1
    ensures FirstValue(ReplaceFirst(ps, name, value), name) == Some(value)
    ensures Without(ReplaceFirst(ps, name, value), name) == Without(ps, name)
  {
    var r := ReplaceFirst(ps, name, value);
    if ps[0].name == name {
      assert r[1..] == Without(ps[1..], name);
      WithoutAbsent(Without(ps[1..], name), name);
    } else {
      ReplaceFirstFacts(ps[1..], name, value);
      assert r[1..] == ReplaceFirst(ps[1..], name, value);
    }
  }

  lemma {:induction false} WithoutAppend(ps: seq<Param>, qs: seq<Param>, name: Key)
    ensures Without(ps + qs, name) == Without(ps, name) + Without(qs, name)
  {
    if ps == [] {
      assert ps + qs == qs;
    } else {
      assert (ps + qs)[1..] == ps[1..] + qs;
      WithoutAppend(ps[1..], qs, name);
    }
  }

  lemma {:induction false} CountAppend(ps: seq<Param>, qs: seq<Param>, name: Key)
    ensures CountName(ps + qs, name) == CountName(ps, name) + CountName(qs, name)
  {
    if ps == [] {
      assert ps + qs == qs;
    } else {
      assert (ps + qs)[1..] == ps[1..] + qs;
      CountAppend(ps[1..], qs, name);
    }
  }

  lemma {:induction false} FirstValueAppend(ps: seq<Param>, qs: seq<Param>, name: Key)
    ensures FirstValue(ps + qs, name) == if HasName(ps, name) then FirstValue(ps, name) else FirstValue(qs, name)
  {
    if ps == [] {
      assert ps + qs == qs;
    } else {
      assert (ps + qs)[1..] == ps[1..] + qs;
      FirstValueAppend(ps[1..], qs, name);
    }
  }

  /** `set` leaves one entry for the name, holding the value, and every other entry as it was. */
  lemma SetParamFacts(ps: seq<Param>, name: Key, value: string)
    ensures CountName(SetParam(ps, name, value), name) == 1
    ensures FirstValue(SetParam(ps, name, value), name) == Some(value)
    ensures Without(SetParam(ps, name, value), name) == Without(ps, name)
  {
    if HasName(ps, name) {
      ReplaceFirstFacts(ps, name, value);
    } else {
      var p := Param(name, value);
      CountAppend(ps, [p], name);
      FirstValueAppend(ps, [p], name);
      WithoutAppend(ps, [p], name);
      assert Without([p], name) == [];
    }
  }

  /** `append` adds one entry for the name and changes nothing before it. */
  lemma AppendParamFacts(ps: seq<Param>, name: Key, value: string)
    ensures CountName(ps + [Param(name, value)], name) == CountName(ps, name) + 1
    ensures FirstValue(ps + [Param(name, value)], name) == if HasName(ps, name) then FirstValue(ps, name) else Some(value)
  {
    var p := Param(name, value);
    CountAppend(ps, [p], name);
    FirstValueAppend(ps, [p], name);
  }

  /** Removing one name leaves the count of every other name as it was. */
  lemma {:induction false} CountWithout(ps: seq<Param>, name: Key, other: Key)
    requires other != name
    ensures CountName(Without(ps, name), other) == CountName(ps, other)
  {
    if ps != [] {
      CountWithout(ps[1..], name, other);
      if ps[0].name != name {
        Cons(ps[0], Without(ps[1..], name), other);
      }
    }
  }

  /** `set` leaves the count of every other name as it was. */
  lemma SetParamCount(ps: seq<Param>, name: Key, value: string, other: Key)
    requires other != name
    ensures CountName(SetParam(ps, name, value), other) == CountName(ps, other)
  {
    var p := Param(name, value);
    SetParamFacts(ps, name, value);
    CountWithout(SetParam(ps, name, value), name, other);
    CountWithout(ps, name, other);
  }

  /** A name occurs exactly when some entry carries it. */
  lemma {:induction false} HasNameIn(ps: seq<Param>, name: Key)
    ensures HasName(ps, name) <==> exists p :: p in ps && p.name == name
  {
    if ps != [] {
      HasNameIn(ps[1..], name);
      assert forall p :: p in ps <==> p == ps[0] || p in ps[1..];
    }
  }

  /** A list none of whose entries carries the name does not have it. */
  lemma NoName(ps: seq<Param>, name: Key)
    requires forall p :: p in ps ==> p.name != name
    ensures !HasName(ps, name)
  {
    HasNameIn(ps, name);
  }

  /** A `URLSearchParams` object: its entries, changed in place. */
  class QueryParams {
    var entries: seq<Param>

    /** `new URLSearchParams(record)`: the record's entries in order. */
    constructor (init: seq<Param>)
      ensures entries == init
    {
      entries := init;
    }

    /** `get(name)`. */
    function Get(name: Key): Option<string>
      reads this
    {
      FirstValue(entries, name)
    }

    /** `append(name, value)`: a new last entry. */
    method Append(name: Key, value: string)
      modifies this
      ensures entries == old(entries) + [Param(name, value)]
      ensures CountName(entries, name) == CountName(old(entries), name) + 1
      ensures Get(name) == if HasName(old(entries), name) then old(Get(name)) else Some(value)
    {
      AppendParamFacts(entries, name, value);
      entries := entries + [Param(name, value)];
    }

    /** `set(name, value)`: one entry for the name, with the value; every other entry as it was. */
    method Set(name: Key, value: string)
      modifies this
      ensures entries == SetParam(old(entries), name, value)
      ensures CountName(entries, name) == 1 && Get(name) == Some(value)
      ensures Without(entries, name) == Without(old(entries), name)
    {
      SetParamFacts(entries, name, value);
      entries := SetParam(entries, name, value);
    }
  }

  // ---------------------------------------------------------------------------
  // fetchProducts
  // ---------------------------------------------------------------------------

  /** The `type` of a product listing. */
  datatype Kind = Featured | Offer | Latest

  /** The fixed field selector of the product query. */
  const ProductFields := "id,name,nameAr,images,price,isFeatured,offer,stock"

  /** `ProductApiResponse`. */
  datatype ProductPage = ProductPage(products: seq<UseCart.Product>, totalProducts: int, totalPages: int)

  /** What `fetchProducts` returns when anything in it throws. */
  const EmptyProductPage := ProductPage([], 0, 0)

  /** The home-page flag of the record, present only when asked for. */
  function HomePageParams(homePage: bool): seq<Param>
  {
    if homePage then [Param(HomePage, "true")] else []
  }

  /** The optional home-page flag in front of a list leaves every other name's entries as they were. */
  lemma FlagInFront(homePage: bool, rest: seq<Param>, name: Key)
    ensures CountName(HomePageParams(homePage) + rest, name) == (if homePage && name == HomePage then 1 else 0) + CountName(rest, name)
    ensures FirstValue(HomePageParams(homePage) + rest, name) ==
      if homePage && name == HomePage then Some("true") else FirstValue(rest, name)
  {
    if homePage {
      Cons(Param(HomePage, "true"), rest, name);
    } else {
      assert HomePageParams(homePage) + rest == rest;
    }
  }

  /** The entries of the record every product query has. */
  function CoreParams(search: SearchParams): seq<Param>
  {
    [Param(StockGt, "0"), Param(IsActive, "true"),
     Param(Limit, ParamOr(search, "limit", "10")), Param(Skip, ParamOr(search, "skip", "0")),
     Param(Fields, ProductFields)]
  }

  /** The fixed entries carry none of the names the rest of the query adds or tests. */
  lemma CoreNames(search: SearchParams)
    ensures CountName(CoreParams(search), HomePage) == 0
    ensures CountName(CoreParams(search), CategoryName) == 0
    ensures CountName(CoreParams(search), Sort) == 0
  {
    var core := CoreParams(search);
    FiveEntries(core[0], core[1], core[2], core[3], core[4], HomePage);
    FiveEntries(core[0], core[1], core[2], core[3], core[4], CategoryName);
    FiveEntries(core[0], core[1], core[2], core[3], core[4], Sort);
  }

  /** The category entry of the record, present only for a category listing. */
  function CategoryParams(category: Option<string>): seq<Param>
  {
    if category.Some? then [Param(CategoryName, category.value)] else []
  }

  /** The record the query starts from, in its key order. */
  function InitialParams(homePage: bool, search: SearchParams, category: Option<string>): seq<Param>
  {
    HomePageParams(homePage) + (CoreParams(search) + CategoryParams(category))
  }

  /** The entries appended for a listing kind. */
  function KindParams(kind: Option<Kind>): seq<Param>
  {
    match kind
    case None => []
    case Some(Featured) => [Param(IsFeatured, "true")]
    case Some(Offer) => [Param(OfferGt, "0")]
    case Some(Latest) => [Param(Sort, "-createdAt"), Param(CreatedAt, "true")]
  }

  /** The kind's entries: the flag of the kind, and a "-createdAt" sort only for "latest". */
  lemma KindNames(kind: Option<Kind>)
    ensures var k := KindParams(kind);
      && CountName(k, HomePage) == 0 && CountName(k, CategoryName) == 0
      && CountName(k, Sort) == (if kind == Some(Latest) then 1 else 0)
      && FirstValue(k, Sort) == (if kind == Some(Latest) then Some("-createdAt") else None)
      && (kind == Some(Featured) ==> Param(IsFeatured, "true") in k)
      && (kind == Some(Offer) ==> Param(OfferGt, "0") in k)
      && (kind == Some(Latest) ==> Param(CreatedAt, "true") in k)
  {
    var k := KindParams(kind);
    if kind == Some(Latest) {
      assert k[1..] == [Param(CreatedAt, "true")];
    }
  }

  /** A requested sort replaces a truthy sort entry, or is appended. */
  function WithSort(base: seq<Param>, search: SearchParams): seq<Param>
  {
    if "sort" in search && SearchTruthy(search["sort"]) then
      var sort := Rendered(search["sort"]);
      if Truthy(FirstValue(base, Sort)) then SetParam(base, Sort, sort) else base + [Param(Sort, sort)]
    else base
  }

  /** The entries of the product query, for a category name already trimmed and decoded. */
  function ProductQuery(kind: Option<Kind>, homePage: bool, search: SearchParams, category: Option<string>): seq<Param>
  {
    WithSort(InitialParams(homePage, search, category) + KindParams(kind), search)
  }

  /** Applying the requested sort keeps every entry that is not a sort, and adds none. */
  lemma WithSortKeeps(base: seq<Param>, search: SearchParams, p: Param)
    requires p.name != Sort
    ensures p in WithSort(base, search) <==> p in base
  {
    if "sort" in search && SearchTruthy(search["sort"]) {
      var sort := Rendered(search["sort"]);
      if Truthy(FirstValue(base, Sort)) {
        SetParamFacts(base, Sort, sort);
        assert p in WithSort(base, search) <==> p in Without(WithSort(base, search), Sort);
      }
    }
  }

  /** Applying the requested sort changes the count of no other name. */
  lemma WithSortCount(base: seq<Param>, search: SearchParams, name: Key)
    requires name != Sort
    ensures CountName(WithSort(base, search), name) == CountName(base, name)
  {
    if "sort" in search && SearchTruthy(search["sort"]) {
      var sort := Rendered(search["sort"]);
      if Truthy(FirstValue(base, Sort)) {
        SetParamCount(base, Sort, sort, name);
      } else {
        CountAppend(base, [Param(Sort, sort)], name);
      }
    }
  }

  /**
   * On a base with at most one sort entry, truthy if present, the requested
   * sort ends up as the only sort entry; without a request the base's stays.
   */
  lemma WithSortSort(base: seq<Param>, search: SearchParams)
    requires CountName(base, Sort) <= 1
    requires FirstValue(base, Sort).None? || Truthy(FirstValue(base, Sort))
    ensures CountName(WithSort(base, search), Sort) <= 1
    ensures FirstValue(WithSort(base, search), Sort) ==
      if "sort" in search && SearchTruthy(search["sort"]) then Some(Rendered(search["sort"])) else FirstValue(base, Sort)
  {
    if "sort" in search && SearchTruthy(search["sort"]) {
      var sort := Rendered(search["sort"]);
      if Truthy(FirstValue(base, Sort)) {
        SetParamFacts(base, Sort, sort);
      } else {
        AppendParamFacts(base, Sort, sort);
      }
    }
  }

  /** Before the sort step: a sort entry only for "latest", holding "-createdAt". */
  lemma BaseSort(kind: Option<Kind>, homePage: bool, search: SearchParams, category: Option<string>)
    ensures var base := InitialParams(homePage, search, category) + KindParams(kind);
      && CountName(base, Sort) == (if kind == Some(Latest) then 1 else 0)
      && FirstValue(base, Sort) == if kind == Some(Latest) then Some("-createdAt") else None
  {
    var init := InitialParams(homePage, search, category);
    var k := KindParams(kind);
    InitialMembers(homePage, search, category);
    KindNames(kind);
    CountAppend(init, k, Sort);
    FirstValueAppend(init, k, Sort);
  }

  /** How often the record holds the names the later steps test. */
  lemma InitialCounts(homePage: bool, search: SearchParams, category: Option<string>)
    ensures CountName(InitialParams(homePage, search, category), HomePage) == if homePage then 1 else 0
    ensures CountName(InitialParams(homePage, search, category), CategoryName) == if category.Some? then 1 else 0
    ensures CountName(InitialParams(homePage, search, category), Sort) == 0
  {
    var core := CoreParams(search);
    var c := CategoryParams(category);
    CoreNames(search);
    CountAppend(core, c, HomePage);
    CountAppend(core, c, CategoryName);
    CountAppend(core, c, Sort);
    FlagInFront(homePage, core + c, HomePage);
    FlagInFront(homePage, core + c, CategoryName);
    FlagInFront(homePage, core + c, Sort);
  }

  /** The initial record: its fixed entries, the flag exactly when asked for, the category when given. */
  lemma InitialMembers(homePage: bool, search: SearchParams, category: Option<string>)
    ensures var init := InitialParams(homePage, search, category);
      && Param(StockGt, "0") in init && Param(IsActive, "true") in init && Param(Fields, ProductFields) in init
      && Param(Limit, ParamOr(search, "limit", "10")) in init
      && Param(Skip, ParamOr(search, "skip", "0")) in init
      && (HasName(init, HomePage) <==> homePage)
      && (category.Some? ==> Param(CategoryName, category.value) in init)
      && (category.None? ==> !HasName(init, CategoryName))
      && !HasName(init, Sort)
  {
    var h := HomePageParams(homePage);
    var core := CoreParams(search);
    var c := CategoryParams(category);
    var init := h + (core + c);
    assert InitialParams(homePage, search, category) == init;
    assert core[0] in init && core[1] in init && core[2] in init && core[3] in init && core[4] in init;
    InitialCounts(homePage, search, category);
    if category.Some? {
      assert c[0] in init;
    }
  }

  /**
   * The entries the query always holds: the stock, activity and field entries,
   * the limit and skip (defaults "10" and "0"), the category when one is
   * given, and the kind's flag.
   */
  lemma ProductQueryMembers(kind: Option<Kind>, homePage: bool, search: SearchParams, category: Option<string>)
    ensures var q := ProductQuery(kind, homePage, search, category);
      && Param(StockGt, "0") in q && Param(IsActive, "true") in q && Param(Fields, ProductFields) in q
      && Param(Limit, ParamOr(search, "limit", "10")) in q
      && Param(Skip, ParamOr(search, "skip", "0")) in q
      && (category.Some? ==> Param(CategoryName, category.value) in q)
      && (kind == Some(Featured) ==> Param(IsFeatured, "true") in q)
      && (kind == Some(Offer) ==> Param(OfferGt, "0") in q)
      && (kind == Some(Latest) ==> Param(CreatedAt, "true") in q)
  {
    var init := InitialParams(homePage, search, category);
    var k := KindParams(kind);
    InitialMembers(homePage, search, category);
    KindNames(kind);
    forall p: Param | p.name != Sort && (p in init || p in k) ensures p in ProductQuery(kind, homePage, search, category) {
      WithSortKeeps(init + k, search, p);
    }
  }

  /**
   * The home-page flag is in the query exactly when asked for, and without a
   * category there is no category entry.
   */
  lemma ProductQueryFlags(kind: Option<Kind>, homePage: bool, search: SearchParams, category: Option<string>)
    ensures var q := ProductQuery(kind, homePage, search, category);
      && (HasName(q, HomePage) <==> homePage)
      && (category.None? ==> !HasName(q, CategoryName))
  {
    var init := InitialParams(homePage, search, category);
    var k := KindParams(kind);
    InitialMembers(homePage, search, category);
    KindNames(kind);
    CountAppend(init, k, HomePage);
    CountAppend(init, k, CategoryName);
    WithSortCount(init + k, search, HomePage);
    WithSortCount(init + k, search, CategoryName);
  }

  /** The query has at most one sort entry: the requested sort, else the "latest" default. */
  lemma ProductQuerySort(kind: Option<Kind>, homePage: bool, search: SearchParams, category: Option<string>)
    ensures var q := ProductQuery(kind, homePage, search, category);
      && CountName(q, Sort) <= 1
      && FirstValue(q, Sort) ==
           if "sort" in search && SearchTruthy(search["sort"]) then Some(Rendered(search["sort"]))
           else if kind == Some(Latest) then Some("-createdAt")
           else None
  {
    BaseSort(kind, homePage, search, category);
    WithSortSort(InitialParams(homePage, search, category) + KindParams(kind), search);
  }

  /** The entries a listing kind appends, in the order the source appends them. */
  method AppendKind(queryParams: QueryParams, kind: Option<Kind>)
    modifies queryParams
    ensures queryParams.entries == old(queryParams.entries) + KindParams(kind)
  {
    ghost var init := queryParams.entries;
    if kind == Some(Featured) {
      queryParams.Append(IsFeatured, "true");
    }
    if kind == Some(Offer) {
      queryParams.Append(OfferGt, "0");
    }
    if kind == Some(Latest) {
      queryParams.Append(Sort, "-createdAt");
      queryParams.Append(CreatedAt, "true");
      AppendAssoc(init, [Param(Sort, "-createdAt")], [Param(CreatedAt, "true")]);
    }
  }

  /** A truthy requested sort is set when a truthy sort entry exists, and appended otherwise. */
  method ApplySort(queryParams: QueryParams, search: SearchParams)
    modifies queryParams
    ensures queryParams.entries == WithSort(old(queryParams.entries), search)
  {
    if "sort" in search && SearchTruthy(search["sort"]) {
      var sort := Rendered(search["sort"]);
      if Truthy(queryParams.Get(Sort)) {
        queryParams.Set(Sort, sort);
      } else {
        queryParams.Append(Sort, sort);
      }
    }
  }

  /**
   * The query of `fetchProducts`, or None when `decodeURIComponent` throws on
   * the category name. `homePage` is the caller's value (true when it passes
   * none); `decode` is `decodeURIComponent`, None when it throws.
   */
  method BuildProductQuery(kind: Option<Kind>, homePage: Option<bool>, search: SearchParams,
                           categoryName: Option<string>, decode: string -> Option<string>)
    returns (query: Option<seq<Param>>)
    ensures query.None? <==> Truthy(categoryName) && decode(Trim(categoryName.value)).None?
    ensures query.Some? ==>
      query.value == ProductQuery(kind, homePage.GetOr(true), search,
                                  if Truthy(categoryName) then decode(Trim(categoryName.value)) else None)
  {
    var category: Option<string> := None;
    if Truthy(categoryName) {
      var decoded := decode(Trim(categoryName.value));
      if decoded.None? {
        return None;
      }
      category := decoded;
    }
    var init := InitialParams(homePage.GetOr(true), search, category);
    var queryParams := new QueryParams(init);
    AppendKind(queryParams, kind);
    ApplySort(queryParams, search);
    query := Some(queryParams.entries);
  }

  /**
   * `fetchProducts`: the backend's page for the query, or the empty page when
   * the query could not be built or the call threw. `outcome` is the page the
   * backend returned, or None when the call threw.
   */
  method FetchProducts(kind: Option<Kind>, homePage: Option<bool>, search: SearchParams,
                       categoryName: Option<string>, decode: string -> Option<string>, outcome: Option<ProductPage>)
    returns (page: ProductPage)
    ensures Truthy(categoryName) && decode(Trim(categoryName.value)).None? ==> page == EmptyProductPage
    ensures !(Truthy(categoryName) && decode(Trim(categoryName.value)).None?) ==>
      page == if outcome.Some? then outcome.value else EmptyProductPage
  {
    var query := BuildProductQuery(kind, homePage, search, categoryName, decode);
    if query.None? || outcome.None? {
      return EmptyProductPage;
    }
    page := outcome.value;
  }
}
