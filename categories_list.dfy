/**
 * `fetchCategories`: the query of the category listing and the page it yields.
 * Unlike the product listing, the query is one record literal: the requested
 * limit, sort and skip replace their defaults as they are, and nothing is
 * appended afterwards.
 */
module CategoriesList {
  import opened Util
  import opened ProductsList

  /** A category as the listing shows it (display fields reduced to the ones the model reads). */
  datatype Category = Category(id: int, name: string, nameAr: string, isActive: bool)

  /** `CategoriesApiResponse`. */
  datatype CategoryPage = CategoryPage(categories: seq<Category>, totalCount: int, totalPages: int)

  /** What `fetchCategories` returns when the call throws. */
  const EmptyCategoryPage := CategoryPage([], 0, 0)

  /** The fixed field selector of the category query. */
  const CategoryFields := "id,name,nameAr,description,descriptionAr,imageUrl,parent=id-name,createdAt,isActive,_count=children-products"

  /** The entries after the optional home-page flag, in the record's key order. */
  function CategoryCore(search: SearchParams): seq<Param>
  {
    [Param(Limit, ParamOr(search, "limit", "10")), Param(Sort, ParamOr(search, "sort", "-createdAt")),
     Param(Skip, ParamOr(search, "skip", "0")), Param(Fields, CategoryFields)]
  }

  /** The record of `fetchCategories`, in its key order. */
  function CategoryQuery(search: SearchParams, homePage: bool): seq<Param>
  {
    HomePageParams(homePage) + CategoryCore(search)
  }

  /** The fixed entries: one each of limit, sort, skip and fields, and no home-page flag. */
  lemma CategoryCoreNames(search: SearchParams)
    ensures var core := CategoryCore(search);
      && CountName(core, HomePage) == 0
      && CountName(core, Limit) == 1 && FirstValue(core, Limit) == Some(ParamOr(search, "limit", "10"))
      && CountName(core, Sort) == 1 && FirstValue(core, Sort) == Some(ParamOr(search, "sort", "-createdAt"))
      && CountName(core, Skip) == 1 && FirstValue(core, Skip) == Some(ParamOr(search, "skip", "0"))
      && CountName(core, Fields) == 1 && FirstValue(core, Fields) == Some(CategoryFields)
  {
    var core := CategoryCore(search);
    FourEntries(core[0], core[1], core[2], core[3], HomePage);
    FourEntries(core[0], core[1], core[2], core[3], Limit);
    FourEntries(core[0], core[1], core[2], core[3], Sort);
    FourEntries(core[0], core[1], core[2], core[3], Skip);
    FourEntries(core[0], core[1], core[2], core[3], Fields);
  }

  /**
   * The category query holds the home-page flag exactly when asked for, and
   * exactly one limit, sort, skip and fields entry each, whose values are the
   * requested ones or the defaults "10", "-createdAt" and "0".
   */
  lemma CategoryQueryFacts(search: SearchParams, homePage: bool)
    ensures var q := CategoryQuery(search, homePage);
      && (HasName(q, HomePage) <==> homePage)
      && (homePage ==> FirstValue(q, HomePage) == Some("true"))
      && CountName(q, Limit) == 1 && FirstValue(q, Limit) == Some(ParamOr(search, "limit", "10"))
      && CountName(q, Sort) == 1 && FirstValue(q, Sort) == Some(ParamOr(search, "sort", "-createdAt"))
      && CountName(q, Skip) == 1 && FirstValue(q, Skip) == Some(ParamOr(search, "skip", "0"))
      && CountName(q, Fields) == 1 && FirstValue(q, Fields) == Some(CategoryFields)
  {
    var core := CategoryCore(search);
    CategoryCoreNames(search);
    FlagInFront(homePage, core, HomePage);
    FlagInFront(homePage, core, Limit);
    FlagInFront(homePage, core, Sort);
    FlagInFront(homePage, core, Skip);
    FlagInFront(homePage, core, Fields);
  }

  /** The home-page flag of the category query, on its own. */
  lemma CategoryHomePage(search: SearchParams, homePage: bool)
    ensures HasName(CategoryQuery(search, homePage), HomePage) <==> homePage
  {
    CategoryQueryFacts(search, homePage);
  }

  /**
   * `fetchCategories`: the backend's page for the category query, or the empty
   * page when the call threw. `outcome` is the page the backend returned, or
   * None when the call threw; `homePage` is the caller's value (true when it
   * passes none).
   */
  function FetchCategories(search: SearchParams, homePage: Option<bool>, outcome: Option<CategoryPage>)
    : (r: (seq<Param>, CategoryPage))
    ensures r.0 == CategoryQuery(search, homePage.GetOr(true))
    ensures HasName(r.0, HomePage) <==> homePage != Some(false)
    ensures outcome.Some? ==> r.1 == outcome.value
    ensures outcome.None? ==> r.1.categories == [] && r.1.totalCount == 0 && r.1.totalPages == 0
  {
    CategoryHomePage(search, homePage.GetOr(true));
    (CategoryQuery(search, homePage.GetOr(true)), if outcome.Some? then outcome.value else EmptyCategoryPage)
  }
}
