/**
 * The two listing pages of app.py, `stores_list` and `foods_list`: from the
 * request's (stripped) query arguments to the SQL text and the bound
 * parameters handed to `execute_query`. What PostgreSQL then returns is not
 * part of this model.
 */
module Listing {
  import opened Wrappers
  import opened PyStr
  import opened SqlText

  /** The bound value of a name search: `f'%{search}%'`, matched with ILIKE. */
  function Like(search: string): (v: string)
    ensures |v| == |search| + 2 && v[0] == '%' && v[|v| - 1] == '%'
    ensures v[1..|v| - 1] == search
  {
    "%" + search + "%"
  }

  /** `text` when `on`, nothing otherwise: a conjunct that a blank filter leaves out. */
  function Opt(on: bool, text: string): string
  {
    if on then text else ""
  }

  /** `[v]` when `on`, nothing otherwise: the value a blank filter does not push. */
  function When(on: bool, v: string): seq<string>
  {
    if on then [v] else []
  }

  /**
   * One step of a listing builder (`if x: sql += clause; params.append(v)`):
   * a non-blank filter appends its conjunct to the text and its value to the
   * parameters; a blank one changes neither.
   */
  method AddFilter(sql: string, params: seq<string>, filter: string, clause: string, bound: string)
    returns (sql': string, params': seq<string>)
    ensures sql' == sql + Opt(filter != "", clause)
    ensures params' == params + When(filter != "", bound)
  {
    sql', params' := sql, params;
    if filter != "" {
      sql' := sql' + clause;
      params' := params' + [bound];
    }
  }

  // ---------------------------------------------------------------- stores

  /** The stripped query arguments of `GET /stores`. */
  datatype StoreQuery = StoreQuery(search: string, locationId: string, categoryId: string, sortBy: string)

  /** Every argument is read with `.get(name, default).strip()`: missing ones are blank, `sort_by` defaults to `'name'`. */
  function StoreQueryOf(args: map<string, string>): (q: StoreQuery)
    ensures Unpadded(q.search) && Unpadded(q.locationId) && Unpadded(q.categoryId) && Unpadded(q.sortBy)
    ensures "search" !in args ==> q.search == ""
    ensures "sort_by" !in args ==> q.sortBy == "name"
  {
    StripUnpadded("name");
    StoreQuery(Field(args, "search", ""), Field(args, "location_id", ""),
               Field(args, "category_id", ""), Field(args, "sort_by", "name"))
  }

  /**
   * Each present store argument reaches the query as its stripped value; a
   * filter is set exactly when its argument is present and not all
   * whitespace; a `sort_by` without surrounding whitespace is taken as it is,
   * and a missing one selects the name ordering.
   */
  lemma StoreArgs(args: map<string, string>)
    ensures StoreShapeOf(StoreQueryOf(args)).search <==> "search" in args && !AllSpace(args["search"])
    ensures StoreShapeOf(StoreQueryOf(args)).location <==> "location_id" in args && !AllSpace(args["location_id"])
    ensures StoreShapeOf(StoreQueryOf(args)).category <==> "category_id" in args && !AllSpace(args["category_id"])
    ensures "sort_by" in args && Unpadded(args["sort_by"]) ==> StoreQueryOf(args).sortBy == args["sort_by"]
    ensures "sort_by" !in args ==> StoreShapeOf(StoreQueryOf(args)).order == ByName
    ensures "search" in args ==> StoreQueryOf(args).search == Strip(args["search"])
    ensures "location_id" in args ==> StoreQueryOf(args).locationId == Strip(args["location_id"])
    ensures "category_id" in args ==> StoreQueryOf(args).categoryId == Strip(args["category_id"])
    ensures "sort_by" in args ==> StoreQueryOf(args).sortBy == Strip(args["sort_by"])
  {
    StripEmpty(Get(args, "search", ""));
    StripEmpty(Get(args, "location_id", ""));
    StripEmpty(Get(args, "category_id", ""));
    if "sort_by" in args && Unpadded(args["sort_by"]) {
      StripUnpadded(args["sort_by"]);
    }
  }

  // The fixed text of the store listing query, app.py:32-42 and 60-62, line
  // by line. Longer lines are written as two literals so that each one's
  // "holds no `%`" fact stays small.

  function StoresSelectLine(): (s: string) ensures NoPercent(s) { "        SELECT DISTINCT s.store_id, " + "s.store_name, l.name as location_name,\n" }
  function StoresRatingLine(): (s: string) ensures NoPercent(s) { "               COALESCE(AVG(r.rating), " + "0) as avg_rating,\n" }
  function StoresCountLine(): (s: string) ensures NoPercent(s) { "               COUNT(DISTINCT f.food_id) " + "as food_count\n" }
  function StoresFromLine(): (s: string) ensures NoPercent(s) { "        FROM stores s\n" }
  function StoresLocationJoin(): (s: string) ensures NoPercent(s) { "        LEFT JOIN locations l ON " + "s.location_id = l.location_id\n" }
  function StoresFoodJoin(): (s: string) ensures NoPercent(s) { "        LEFT JOIN foods f ON " + "s.store_id = f.store_id\n" }
  function ReviewJoin(): (s: string) ensures NoPercent(s) { "        LEFT JOIN reviews r ON " + "f.food_id = r.food_id\n" }
  function StoresCategoryJoin(): (s: string) ensures NoPercent(s) { "        LEFT JOIN store_categories sc " + "ON s.store_id = sc.store_id\n" }
  function WhereTrue(): (s: string) ensures NoPercent(s) { "        WHERE 1=1\n    " }

  /** The fixed head of the store listing query, up to `WHERE 1=1`. */
  function StoresHead(): (s: string)
    ensures NoPercent(s)
  {
    "\n" + StoresSelectLine() + StoresRatingLine() + StoresCountLine() + StoresFromLine() +
    StoresLocationJoin() + StoresFoodJoin() + ReviewJoin() + StoresCategoryJoin() + WhereTrue()
  }

  function StoresGroupBy(): (s: string) ensures NoPercent(s) { "\n        GROUP BY s.store_id, " + "s.store_name, l.name\n    " }

  const StoreNameLike := " AND s.store_name ILIKE " + Slot
  const StoreLocationIs := " AND s.location_id = " + Slot
  const StoreCategoryIs := " AND sc.category_id = " + Slot

  /** The store orderings `sort_by` can select. */
  datatype StoreOrder = ByName | ByRatingDesc | ByRatingAsc | ByFoodCountDesc | ByFoodCountAsc | ById

  /** The `sort_by` values the store listing recognises; anything else sorts by id. */
  const StoreSortKeys := ["name", "rating_desc", "rating_asc", "food_count_desc", "food_count_asc"]

  /** The `sort_by` value that selects an ordering; `ById` is the fallback and has none of its own. */
  function StoreSortKey(o: StoreOrder): string
  {
    match o
    case ByName => "name"
    case ByRatingDesc => "rating_desc"
    case ByRatingAsc => "rating_asc"
    case ByFoodCountDesc => "food_count_desc"
    case ByFoodCountAsc => "food_count_asc"
    case ById => ""
  }

  /** The ordering the if/elif chain on `sort_by` picks. */
  function StoreOrderOf(sortBy: string): (o: StoreOrder)
    ensures o == ById <==> sortBy !in StoreSortKeys
    ensures o != ById ==> StoreSortKey(o) == sortBy
  {
    if sortBy == "name" then ByName
    else if sortBy == "rating_desc" then ByRatingDesc
    else if sortBy == "rating_asc" then ByRatingAsc
    else if sortBy == "food_count_desc" then ByFoodCountDesc
    else if sortBy == "food_count_asc" then ByFoodCountAsc
    else ById
  }

  lemma StoreSortKeyRoundTrip(o: StoreOrder)
    requires o != ById
    ensures StoreSortKey(o) in StoreSortKeys && StoreOrderOf(StoreSortKey(o)) == o
  {
  }

  function StoreOrderClause(o: StoreOrder): (c: string)
    ensures NoPercent(c)
  {
    match o
    case ByName => " ORDER BY s.store_name ASC"
    case ByRatingDesc => " ORDER BY avg_rating DESC"
    case ByRatingAsc => " ORDER BY avg_rating ASC"
    case ByFoodCountDesc => " ORDER BY food_count DESC"
    case ByFoodCountAsc => " ORDER BY food_count ASC"
    case ById => " ORDER BY s.store_id ASC"
  }

  /** The values bound for a store query: one per non-blank filter, in check order (search, location, category). */
  function StoreParams(q: StoreQuery): seq<string>
  {
    When(q.search != "", Like(q.search)) + When(q.locationId != "", q.locationId) +
    When(q.categoryId != "", q.categoryId)
  }

  /** What of a store query the SQL text may depend on: which filters are set, and the ordering. */
  datatype StoreShape = StoreShape(search: bool, location: bool, category: bool, order: StoreOrder)

  function StoreShapeOf(q: StoreQuery): StoreShape
  {
    StoreShape(q.search != "", q.locationId != "", q.categoryId != "", StoreOrderOf(q.sortBy))
  }

  /** How many filters a shape has set. */
  function StoreFilterCount(s: StoreShape): nat
  {
    (if s.search then 1 else 0) + (if s.location then 1 else 0) + (if s.category then 1 else 0)
  }

  /**
   * The store listing's SQL text, from fixed fragments alone: head, one
   * conjunct per set filter, GROUP BY, then the one ORDER BY clause of the
   * ordering. Its argument holds no request value, so none can reach the text.
   */
  function StoresText(s: StoreShape): string
  {
    StoresWhere(s) + StoresGroupBy() + StoreOrderClause(s.order)
  }

  /** The store query up to its GROUP BY: the fixed head and the conjuncts of the set filters. */
  function StoresWhere(s: StoreShape): string
  {
    StoresHead() + Opt(s.search, StoreNameLike) + Opt(s.location, StoreLocationIs) + Opt(s.category, StoreCategoryIs)
  }

  /**
   * `stores_list` lines 31-77: the text grows by one conjunct and the list by
   * one value per non-blank filter, then GROUP BY and one ORDER BY are appended.
   */
  method BuildStoresQuery(q: StoreQuery) returns (sql: string, params: Option<seq<string>>)
    ensures sql == StoresText(StoreShapeOf(q))
    ensures params == Bind(StoreParams(q))
    ensures Placeholders(sql) == Arity(params)
  {
    sql := StoresHead();
    var ps: seq<string> := [];
    sql, ps := AddFilter(sql, ps, q.search, StoreNameLike, Like(q.search));
    sql, ps := AddFilter(sql, ps, q.locationId, StoreLocationIs, q.locationId);
    sql, ps := AddFilter(sql, ps, q.categoryId, StoreCategoryIs, q.categoryId);
    assert sql == StoresWhere(StoreShapeOf(q));
    assert ps == StoreParams(q);
    sql := sql + StoresGroupBy();
    sql := sql + StoreOrderClause(StoreOrderOf(q.sortBy));
    params := Bind(ps);
    StoresPlaceholders(StoreShapeOf(q));
    StoreParamsCount(q);
  }

  lemma StoreConjuncts()
    ensures OneSlot(StoreNameLike) && OneSlot(StoreLocationIs) && OneSlot(StoreCategoryIs)
  {
    SlotAfter(" AND s.store_name ILIKE ");
    SlotAfter(" AND s.location_id = ");
    SlotAfter(" AND sc.category_id = ");
  }

  /** Each set filter puts exactly one `%s` into the text, and nothing else does. */
  lemma StoresPlaceholders(s: StoreShape)
    ensures Placeholders(StoresText(s)) == StoreFilterCount(s)
  {
    StoreConjuncts();
    Conjuncts3(StoresHead(), Opt(s.search, StoreNameLike), Opt(s.location, StoreLocationIs),
               Opt(s.category, StoreCategoryIs), StoresGroupBy(), StoreOrderClause(s.order));
  }

  lemma StoreParamsCount(q: StoreQuery)
    ensures |StoreParams(q)| == StoreFilterCount(StoreShapeOf(q))
  {
  }

  /**
   * The bound parameters: the search pattern first when searching, the
   * category last when filtering by category, and no parameter tuple at all
   * when every filter is blank.
   */
  lemma StoreParamsOrder(q: StoreQuery)
    ensures Bind(StoreParams(q)) == None <==> q.search == "" && q.locationId == "" && q.categoryId == ""
    ensures q.search != "" ==> StoreParams(q)[0] == Like(q.search)
    ensures q.categoryId != "" ==> StoreParams(q)[|StoreParams(q)| - 1] == q.categoryId
  {
  }

  // ----------------------------------------------------------------- foods

  /** The stripped query arguments of `GET /foods` and `GET /foods/export`. */
  datatype FoodQuery = FoodQuery(search: string, storeId: string, minPrice: string, maxPrice: string, sortBy: string)

  /** The food arguments read with `.get(name, default).strip()`; the listing defaults `sort_by` to `'id'`, the export to `'food_id'`. */
  function FoodQueryOf(args: map<string, string>, sortDefault: string): (q: FoodQuery)
    ensures Unpadded(q.search) && Unpadded(q.storeId)
    ensures Unpadded(q.minPrice) && Unpadded(q.maxPrice) && Unpadded(q.sortBy)
    ensures "search" !in args ==> q.search == ""
    ensures "sort_by" !in args ==> q.sortBy == Strip(sortDefault)
  {
    FoodQuery(Field(args, "search", ""), Field(args, "store_id", ""), Field(args, "min_price", ""),
              Field(args, "max_price", ""), Field(args, "sort_by", sortDefault))
  }

  /**
   * Each present food argument reaches the query as its stripped value; a
   * filter is set exactly when its argument is present and not all
   * whitespace; a `sort_by` without surrounding whitespace is taken as it is.
   */
  lemma FoodArgs(args: map<string, string>, sortDefault: string)
    ensures FoodFilterShapeOf(FoodQueryOf(args, sortDefault)).search <==> "search" in args && !AllSpace(args["search"])
    ensures FoodFilterShapeOf(FoodQueryOf(args, sortDefault)).store <==> "store_id" in args && !AllSpace(args["store_id"])
    ensures FoodFilterShapeOf(FoodQueryOf(args, sortDefault)).minPrice <==> "min_price" in args && !AllSpace(args["min_price"])
    ensures FoodFilterShapeOf(FoodQueryOf(args, sortDefault)).maxPrice <==> "max_price" in args && !AllSpace(args["max_price"])
    ensures "sort_by" in args && Unpadded(args["sort_by"]) ==> FoodQueryOf(args, sortDefault).sortBy == args["sort_by"]
    ensures "search" in args ==> FoodQueryOf(args, sortDefault).search == Strip(args["search"])
    ensures "store_id" in args ==> FoodQueryOf(args, sortDefault).storeId == Strip(args["store_id"])
    ensures "min_price" in args ==> FoodQueryOf(args, sortDefault).minPrice == Strip(args["min_price"])
    ensures "max_price" in args ==> FoodQueryOf(args, sortDefault).maxPrice == Strip(args["max_price"])
    ensures "sort_by" in args ==> FoodQueryOf(args, sortDefault).sortBy == Strip(args["sort_by"])
  {
    StripEmpty(Get(args, "search", ""));
    StripEmpty(Get(args, "store_id", ""));
    StripEmpty(Get(args, "min_price", ""));
    StripEmpty(Get(args, "max_price", ""));
    if "sort_by" in args && Unpadded(args["sort_by"]) {
      StripUnpadded(args["sort_by"]);
    }
  }

  /** The arguments of `GET /foods`: `sort_by` defaults to `'id'`, which is no food ordering key, so the list is ordered by name. */
  function FoodsListQueryOf(args: map<string, string>): (q: FoodQuery)
    ensures "sort_by" !in args ==> q.sortBy == "id" && FoodOrderOf(q.sortBy) == NameAscending
  {
    StripUnpadded("id");
    FoodQueryOf(args, "id")
  }

  // The fixed text of the food listing query, app.py:241-248 and 268-270.

  function FoodsSelectLine(): (s: string) ensures NoPercent(s) { "        SELECT f.*, s.store_name,\n" }
  function FoodsRatingLine(): (s: string) ensures NoPercent(s) { "               COALESCE(AVG(r.rating), " + "0) as avg_rating\n" }
  function FoodsFromLine(): (s: string) ensures NoPercent(s) { "        FROM foods f\n" }
  function FoodsStoreJoin(): (s: string) ensures NoPercent(s) { "        JOIN stores s ON " + "f.store_id = s.store_id\n" }

  /** The fixed head of the food listing query, up to `WHERE 1=1`. */
  function FoodsHead(): (s: string)
    ensures NoPercent(s)
  {
    "\n" + FoodsSelectLine() + FoodsRatingLine() + FoodsFromLine() + FoodsStoreJoin() + ReviewJoin() + WhereTrue()
  }

  function FoodsGroupBy(): (s: string) ensures NoPercent(s) { "\n        GROUP BY f.food_id, " + "s.store_name\n    " }

  // The conjuncts shared by the food listing and the CSV export (app.py:251-265, 389-400).
  const FoodNameLike := " AND f.food_name ILIKE " + Slot
  const FoodStoreIs := " AND f.store_id = " + Slot
  const FoodPriceAtLeast := " AND f.price >= " + Slot
  const FoodPriceAtMost := " AND f.price <= " + Slot

  lemma FoodConjuncts()
    ensures OneSlot(FoodNameLike) && OneSlot(FoodStoreIs) && OneSlot(FoodPriceAtLeast) && OneSlot(FoodPriceAtMost)
  {
    SlotAfter(" AND f.food_name ILIKE ");
    SlotAfter(" AND f.store_id = ");
    SlotAfter(" AND f.price >= ");
    SlotAfter(" AND f.price <= ");
  }

  /** The values bound for a food query: one per non-blank filter, in check order (search, store, min, max price). */
  function FoodParams(q: FoodQuery): seq<string>
  {
    When(q.search != "", Like(q.search)) + When(q.storeId != "", q.storeId) +
    When(q.minPrice != "", q.minPrice) + When(q.maxPrice != "", q.maxPrice)
  }

  /** Which food filters are set: what of a food query its WHERE clause may depend on. */
  datatype FoodFilterShape = FoodFilterShape(search: bool, store: bool, minPrice: bool, maxPrice: bool)

  function FoodFilterShapeOf(q: FoodQuery): FoodFilterShape
  {
    FoodFilterShape(q.search != "", q.storeId != "", q.minPrice != "", q.maxPrice != "")
  }

  function FoodFilterCount(f: FoodFilterShape): nat
  {
    (if f.search then 1 else 0) + (if f.store then 1 else 0) + (if f.minPrice then 1 else 0) + (if f.maxPrice then 1 else 0)
  }

  /** The food orderings `sort_by` can select; `NameAscending` is the fallback, the default `'id'` included. */
  datatype FoodOrder = PriceAscending | PriceDescending | RatingDescending | RatingAscending | NameAscending

  const FoodSortKeys := ["price_asc", "price_desc", "rating_desc", "rating_asc"]

  function FoodSortKey(o: FoodOrder): string
  {
    match o
    case PriceAscending => "price_asc"
    case PriceDescending => "price_desc"
    case RatingDescending => "rating_desc"
    case RatingAscending => "rating_asc"
    case NameAscending => ""
  }

  function FoodOrderOf(sortBy: string): (o: FoodOrder)
    ensures o == NameAscending <==> sortBy !in FoodSortKeys
    ensures o != NameAscending ==> FoodSortKey(o) == sortBy
  {
    if sortBy == "price_asc" then PriceAscending
    else if sortBy == "price_desc" then PriceDescending
    else if sortBy == "rating_desc" then RatingDescending
    else if sortBy == "rating_asc" then RatingAscending
    else NameAscending
  }

  lemma FoodSortKeyRoundTrip(o: FoodOrder)
    requires o != NameAscending
    ensures FoodSortKey(o) in FoodSortKeys && FoodOrderOf(FoodSortKey(o)) == o
  {
  }

  function FoodOrderClause(o: FoodOrder): (c: string)
    ensures NoPercent(c)
  {
    match o
    case PriceAscending => " ORDER BY f.price ASC"
    case PriceDescending => " ORDER BY f.price DESC"
    case RatingDescending => " ORDER BY avg_rating DESC"
    case RatingAscending => " ORDER BY avg_rating ASC"
    case NameAscending => " ORDER BY f.food_name ASC"
  }

  /** The food listing's SQL text, from fixed fragments alone, given which filters are set and the ordering. */
  function FoodsText(f: FoodFilterShape, o: FoodOrder): string
  {
    FoodsWhere(f) + FoodsGroupBy() + FoodOrderClause(o)
  }

  /** The food query up to its GROUP BY: the fixed head and the conjuncts of the set filters. */
  function FoodsWhere(f: FoodFilterShape): string
  {
    FoodsHead() + Opt(f.search, FoodNameLike) + Opt(f.store, FoodStoreIs) + Opt(f.minPrice, FoodPriceAtLeast) +
    Opt(f.maxPrice, FoodPriceAtMost)
  }

  /** `foods_list` lines 241-284. */
  method BuildFoodsQuery(q: FoodQuery) returns (sql: string, params: Option<seq<string>>)
    ensures sql == FoodsText(FoodFilterShapeOf(q), FoodOrderOf(q.sortBy))
    ensures params == Bind(FoodParams(q))
    ensures Placeholders(sql) == Arity(params)
  {
    sql := FoodsHead();
    var ps: seq<string> := [];
    sql, ps := AddFilter(sql, ps, q.search, FoodNameLike, Like(q.search));
    sql, ps := AddFilter(sql, ps, q.storeId, FoodStoreIs, q.storeId);
    sql, ps := AddFilter(sql, ps, q.minPrice, FoodPriceAtLeast, q.minPrice);
    sql, ps := AddFilter(sql, ps, q.maxPrice, FoodPriceAtMost, q.maxPrice);
    assert sql == FoodsWhere(FoodFilterShapeOf(q));
    assert ps == FoodParams(q);
    sql := sql + FoodsGroupBy();
    sql := sql + FoodOrderClause(FoodOrderOf(q.sortBy));
    params := Bind(ps);
    FoodsPlaceholders(FoodFilterShapeOf(q), FoodOrderOf(q.sortBy));
    FoodParamsCount(q);
  }

  lemma FoodsPlaceholders(f: FoodFilterShape, o: FoodOrder)
    ensures Placeholders(FoodsText(f, o)) == FoodFilterCount(f)
  {
    FoodConjuncts();
    Conjuncts4(FoodsHead(), Opt(f.search, FoodNameLike), Opt(f.store, FoodStoreIs), Opt(f.minPrice, FoodPriceAtLeast),
               Opt(f.maxPrice, FoodPriceAtMost), FoodsGroupBy(), FoodOrderClause(o));
  }

  lemma FoodParamsCount(q: FoodQuery)
    ensures |FoodParams(q)| == FoodFilterCount(FoodFilterShapeOf(q))
  {
  }

  /**
   * The bound parameters: the search pattern first when searching, the
   * maximum price last when bounding it, the minimum price right before it
   * when both bounds are given, and no tuple at all when every filter is blank.
   */
  lemma FoodParamsOrder(q: FoodQuery)
    ensures Bind(FoodParams(q)) == None <==> q.search == "" && q.storeId == "" && q.minPrice == "" && q.maxPrice == ""
    ensures q.search != "" ==> FoodParams(q)[0] == Like(q.search)
    ensures q.maxPrice != "" ==> FoodParams(q)[|FoodParams(q)| - 1] == q.maxPrice
    ensures q.minPrice != "" && q.maxPrice != "" ==> FoodParams(q)[|FoodParams(q)| - 2] == q.minPrice
  {
  }
}
