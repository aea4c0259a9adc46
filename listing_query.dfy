/** lib/db.ts, `getActiveListings`: the WHERE clause, positional parameter
    list, ORDER BY and LIMIT/OFFSET placeholders of the listing search.
    The clause is kept as a list of condition tokens; `WhereSql` renders
    them to the SQL text the source concatenates. Running the query and
    mapping its rows are not part of this model. */
module ListingQuery {
  import opened Common
  import Decimal

  /** The optional arguments of `getActiveListings`; `None` is `undefined`. */
  datatype Options = Options(
    limit: Option<int>,
    offset: Option<int>,
    search: Option<string>,
    listingType: Option<string>,
    niche: Option<string>,
    minPrice: Option<real>,
    maxPrice: Option<real>,
    sortBy: Option<string>)

  /** `getActiveListings()` called with no options. */
  const NoOptions := Options(None, None, None, None, None, None, None, None)

  const DefaultLimit := 20
  const DefaultOffset := 0
  const DefaultSort := "newest"

  /** A value of the positional parameter list. */
  datatype Param = TextParam(text: string) | RealParam(x: real) | IntParam(n: int)

  /** The optional filters, in the order the clauses are appended. */
  datatype FilterKind = Search | TypeFilter | NicheFilter | MinPrice | MaxPrice

  function Rank(k: FilterKind): nat {
    match k
    case Search => 0
    case TypeFilter => 1
    case NicheFilter => 2
    case MinPrice => 3
    case MaxPrice => 4
  }

  /** One condition of the WHERE clause; `ref` is the number `n` of its `$n`. */
  datatype Cond = ActiveOnly | Match(kind: FilterKind, ref: nat)

  datatype Order = CreatedDesc | CreatedAsc | PriceAsc | PriceDesc | ViewsDesc

  /** The parts of the query text that vary, and the parameters bound to it. */
  datatype Query = Query(where: seq<Cond>, order: Order, limitRef: nat, offsetRef: nat, params: seq<Param>)

  /** A filter the options switch on, with the value bound to its placeholder. */
  datatype Filter = Filter(kind: FilterKind, value: Param)

  /** The filters present in `o`, in clause order: search, type and niche when
      truthy (so "" adds nothing), the price bounds whenever they are defined
      (so 0 adds a clause). This is the reference the builder is proved against. */
  function Filters(o: Options): (fs: seq<Filter>)
  {
    Collect(o, ClauseOrder)
  }

  /** The filter kinds in the order the source tests them. */
  const ClauseOrder := [Search, TypeFilter, NicheFilter, MinPrice, MaxPrice]

  /** The filters of kinds `ks` that the options switch on, in the order of `ks`. */
  function Collect(o: Options, ks: seq<FilterKind>): (fs: seq<Filter>)
    ensures |fs| <= |ks|
  {
    if ks == [] then [] else Collect(o, ks[..|ks| - 1]) + Part(o, ks[|ks| - 1])
  }

  /** The filter of kind `k` when the options switch it on, else nothing. */
  function Part(o: Options, k: FilterKind): (fs: seq<Filter>)
    ensures |fs| <= 1 && forall i :: 0 <= i < |fs| ==> fs[i].kind == k
  {
    match k
    case Search => if Present(o.search) then [Filter(Search, TextParam("%" + o.search.GetOr("") + "%"))] else []
    case TypeFilter => if Present(o.listingType) then [Filter(TypeFilter, TextParam(o.listingType.GetOr("")))] else []
    case NicheFilter => if Present(o.niche) then [Filter(NicheFilter, TextParam(o.niche.GetOr("")))] else []
    case MinPrice => if o.minPrice.Some? then [Filter(MinPrice, RealParam(o.minPrice.GetOr(0.0)))] else []
    case MaxPrice => if o.maxPrice.Some? then [Filter(MaxPrice, RealParam(o.maxPrice.GetOr(0.0)))] else []
  }

  function Values(fs: seq<Filter>): (vs: seq<Param>)
    ensures |vs| == |fs| && forall i :: 0 <= i < |fs| ==> vs[i] == fs[i].value
  {
    if fs == [] then [] else Values(fs[..|fs| - 1]) + [fs[|fs| - 1].value]
  }

  /** `$n` */
  function Placeholder(n: nat): string {
    "$" + Decimal.NatToString(n)
  }

  function CondSql(c: Cond): string {
    match c
    case ActiveOnly => "WHERE l.status = 'ACTIVE'"
    case Match(Search, n) => " AND (l.title ILIKE " + Placeholder(n) + " OR l.description ILIKE " + Placeholder(n) + ")"
    case Match(TypeFilter, n) => " AND l.type = " + Placeholder(n)
    case Match(NicheFilter, n) => " AND l.niche = " + Placeholder(n)
    case Match(MinPrice, n) => " AND l.price >= " + Placeholder(n)
    case Match(MaxPrice, n) => " AND l.price <= " + Placeholder(n)
  }

  /** The WHERE clause as the source concatenates it. */
  function WhereSql(where: seq<Cond>): string {
    if where == [] then "" else WhereSql(where[..|where| - 1]) + CondSql(where[|where| - 1])
  }

  function OrderSql(o: Order): string {
    match o
    case CreatedDesc => "ORDER BY l.created_at DESC"
    case CreatedAsc => "ORDER BY l.created_at ASC"
    case PriceAsc => "ORDER BY l.price ASC"
    case PriceDesc => "ORDER BY l.price DESC"
    case ViewsDesc => "ORDER BY l.views DESC"
  }

  /** `LIMIT $n OFFSET $m` */
  function LimitSql(q: Query): string {
    "LIMIT " + Placeholder(q.limitRef) + " OFFSET " + Placeholder(q.offsetRef)
  }

  /** `q` is the query for filters `fs`: the status condition, then one
      clause per filter in order, the i-th numbered `$i`; the parameters are
      the filter values in the same order followed by limit and offset, whose
      placeholders are the next two numbers. */
  ghost predicate Binds(q: Query, fs: seq<Filter>, limit: int, offset: int) {
    && |q.where| == |fs| + 1 && q.where[0] == ActiveOnly
    && (forall i :: 1 <= i < |q.where| ==> q.where[i] == Match(fs[i - 1].kind, i))
    && q.params == Values(fs) + [IntParam(limit), IntParam(offset)]
    && q.limitRef == |fs| + 1 && q.offsetRef == |fs| + 2
  }

  /** Every placeholder of the query names a parameter, and each filter
      clause's placeholder names the parameter pushed with it. */
  predicate WellNumbered(q: Query) {
    && (forall i :: 0 <= i < |q.where| && q.where[i].Match? ==> 1 <= q.where[i].ref <= |q.params|)
    && 1 <= q.limitRef <= |q.params| && 1 <= q.offsetRef <= |q.params|
  }

  /** The query `getActiveListings(o)` sends: the status condition first,
      then one clause per present filter, numbered `$1`, `$2`, ... in the
      order of `Filters(o)`, each bound to its value; limit and offset are
      bound last, to the next two numbers. */
  method BuildQuery(o: Options) returns (q: Query)
    ensures Binds(q, Filters(o), o.limit.GetOr(DefaultLimit), o.offset.GetOr(DefaultOffset))
    ensures var sortBy := o.sortBy.GetOr(DefaultSort);
      q.order == (if sortBy == "oldest" then CreatedAsc
                  else if sortBy == "price-low" then PriceAsc
                  else if sortBy == "price-high" then PriceDesc
                  else if sortBy == "popular" then ViewsDesc
                  else CreatedDesc)
  {
    var limit := o.limit.GetOr(DefaultLimit);
    var offset := o.offset.GetOr(DefaultOffset);
    var sortBy := o.sortBy.GetOr(DefaultSort);

    var where := [ActiveOnly];
    var params: seq<Param> := [];
    var paramIndex: nat := 1;
    ghost var fs: seq<Filter> := [];

    where, params, paramIndex := AddFilterIf(Present(o.search), where, params, paramIndex,
                                             Search, TextParam("%" + o.search.GetOr("") + "%"), fs);
    fs := fs + Part(o, Search);
    where, params, paramIndex := AddFilterIf(Present(o.listingType), where, params, paramIndex,
                                             TypeFilter, TextParam(o.listingType.GetOr("")), fs);
    fs := fs + Part(o, TypeFilter);
    where, params, paramIndex := AddFilterIf(Present(o.niche), where, params, paramIndex,
                                             NicheFilter, TextParam(o.niche.GetOr("")), fs);
    fs := fs + Part(o, NicheFilter);
    where, params, paramIndex := AddFilterIf(o.minPrice.Some?, where, params, paramIndex,
                                             MinPrice, RealParam(o.minPrice.GetOr(0.0)), fs);
    fs := fs + Part(o, MinPrice);
    where, params, paramIndex := AddFilterIf(o.maxPrice.Some?, where, params, paramIndex,
                                             MaxPrice, RealParam(o.maxPrice.GetOr(0.0)), fs);
    fs := fs + Part(o, MaxPrice);

    var order := CreatedDesc;
    if sortBy == "oldest" {
      order := CreatedAsc;
    } else if sortBy == "price-low" {
      order := PriceAsc;
    } else if sortBy == "price-high" {
      order := PriceDesc;
    } else if sortBy == "popular" {
      order := ViewsDesc;
    }

    params := params + [IntParam(limit), IntParam(offset)];
    q := Query(where, order, paramIndex, paramIndex + 1, params);
    assert Binds(q, fs, limit, offset);
    FiltersInClauseOrder(o);
  }

  /** One `if (filter) { whereClause += ...; params.push(...); paramIndex++ }`
      block: when the filter is on, the clause references the current index,
      the value is pushed at that position and the index moves on; when it is
      off, nothing changes. */
  method AddFilterIf(on: bool, where: seq<Cond>, params: seq<Param>, paramIndex: nat, kind: FilterKind, value: Param,
                     ghost fs: seq<Filter>)
    returns (where': seq<Cond>, params': seq<Param>, paramIndex': nat)
    requires Invariant(where, params, paramIndex, fs)
    ensures on ==> where' == where + [Match(kind, paramIndex)] && params' == params + [value] && paramIndex' == paramIndex + 1
    ensures !on ==> where' == where && params' == params && paramIndex' == paramIndex
    ensures Invariant(where', params', paramIndex', fs + if on then [Filter(kind, value)] else [])
  {
    if on {
      where' := where + [Match(kind, paramIndex)];
      params' := params + [value];
      paramIndex' := paramIndex + 1;
      assert (fs + [Filter(kind, value)])[..|fs|] == fs;
    } else {
      where', params', paramIndex' := where, params, paramIndex;
      assert fs + [] == fs;
    }
  }

  /** What holds between the filter steps of `BuildQuery`: the running
      index is one past the parameter count, and the clauses after the
      status condition are the filters seen so far, numbered in order. */
  ghost predicate Invariant(where: seq<Cond>, params: seq<Param>, paramIndex: nat, fs: seq<Filter>) {
    && paramIndex == |params| + 1
    && |where| == |fs| + 1 && where[0] == ActiveOnly
    && params == Values(fs)
    && forall i :: 1 <= i < |where| ==> where[i] == Match(fs[i - 1].kind, i)
  }

  /** In a query built for `fs`, each filter clause's placeholder names the
      parameter holding that filter's value, LIMIT and OFFSET name the last
      two parameters, and nothing refers past the end of the list. */
  lemma BoundPlaceholders(q: Query, fs: seq<Filter>, limit: int, offset: int)
    requires Binds(q, fs, limit, offset)
    ensures WellNumbered(q)
    ensures forall i :: 1 <= i < |q.where| ==> q.params[q.where[i].ref - 1] == fs[i - 1].value
    ensures |q.params| == q.offsetRef == q.limitRef + 1
    ensures q.params[q.limitRef - 1] == IntParam(limit) && q.params[q.offsetRef - 1] == IntParam(offset)
  {
    forall i | 1 <= i < |q.where|
      ensures q.params[q.where[i].ref - 1] == fs[i - 1].value
    {
      assert q.where[i].ref == i;
      assert q.params[i - 1] == Values(fs)[i - 1];
    }
  }

  /** `Filters` spelled out: one optional part per kind, in clause order. */
  lemma FiltersInClauseOrder(o: Options)
    ensures Filters(o) == [] + Part(o, Search) + Part(o, TypeFilter) + Part(o, NicheFilter) + Part(o, MinPrice) + Part(o, MaxPrice)
  {
    var ks := ClauseOrder;
    assert ks[..1][..0] == [] && ks[..2][..1] == ks[..1] && ks[..3][..2] == ks[..2];
    assert ks[..4][..3] == ks[..3] && ks[..5][..4] == ks[..4] && ks[..5] == ks;
    assert Collect(o, ks[..1]) == [] + Part(o, Search);
    assert Collect(o, ks[..2]) == Collect(o, ks[..1]) + Part(o, TypeFilter);
    assert Collect(o, ks[..3]) == Collect(o, ks[..2]) + Part(o, NicheFilter);
    assert Collect(o, ks[..4]) == Collect(o, ks[..3]) + Part(o, MinPrice);
    assert Collect(o, ks[..5]) == Collect(o, ks[..4]) + Part(o, MaxPrice);
  }

  /** Collecting over kinds listed in increasing rank yields filters in
      increasing rank, each of a listed kind. */
  lemma {:induction false} CollectOrdered(o: Options, ks: seq<FilterKind>)
    requires forall i, j :: 0 <= i < j < |ks| ==> Rank(ks[i]) < Rank(ks[j])
    ensures forall f :: f in Collect(o, ks) ==> f.kind in ks
    ensures forall i, j :: 0 <= i < j < |Collect(o, ks)| ==> Rank(Collect(o, ks)[i].kind) < Rank(Collect(o, ks)[j].kind)
  {
    if ks != [] {
      var init, last := ks[..|ks| - 1], ks[|ks| - 1];
      CollectOrdered(o, init);
      var fs, p := Collect(o, init), Part(o, last);
      assert Collect(o, ks) == fs + p;
      forall f: Filter | f in fs + p ensures f.kind in ks {
        if f in fs { assert f.kind in init; }
      }
      forall i, j | 0 <= i < j < |fs + p|
        ensures Rank((fs + p)[i].kind) < Rank((fs + p)[j].kind)
      {
        if j >= |fs| {
          assert (fs + p)[j].kind == last;
          assert fs[i] in fs;
          var m :| 0 <= m < |init| && init[m] == fs[i].kind;
          assert ks[m] == init[m];
        }
      }
    }
  }

  /** A filter is collected exactly when it is the part of one of the kinds. */
  lemma {:induction false} CollectMembers(o: Options, ks: seq<FilterKind>, f: Filter)
    ensures f in Collect(o, ks) <==> exists k :: k in ks && f in Part(o, k)
  {
    if ks != [] {
      var init, last := ks[..|ks| - 1], ks[|ks| - 1];
      CollectMembers(o, init, f);
      assert ks == init + [last];
      if f in Part(o, last) {
        assert last in ks;
      }
      if f in Collect(o, init) {
        var k :| k in init && f in Part(o, k);
        assert k in ks;
      }
    }
  }

  /** The filters appear in the fixed order search, type, niche, minPrice,
      maxPrice; a text filter is on exactly when its option is a non-empty
      string, a price bound exactly when it is defined (0 included). */
  lemma FiltersOrderAndPresence(o: Options)
    ensures forall i, j :: 0 <= i < j < |Filters(o)| ==> Rank(Filters(o)[i].kind) < Rank(Filters(o)[j].kind)
    ensures Filter(Search, TextParam("%" + o.search.GetOr("") + "%")) in Filters(o) <==> Present(o.search)
    ensures Filter(TypeFilter, TextParam(o.listingType.GetOr(""))) in Filters(o) <==> Present(o.listingType)
    ensures Filter(NicheFilter, TextParam(o.niche.GetOr(""))) in Filters(o) <==> Present(o.niche)
    ensures Filter(MinPrice, RealParam(o.minPrice.GetOr(0.0))) in Filters(o) <==> o.minPrice.Some?
    ensures Filter(MaxPrice, RealParam(o.maxPrice.GetOr(0.0))) in Filters(o) <==> o.maxPrice.Some?
    ensures forall f :: f in Filters(o) && f.kind == Search ==> Present(o.search)
    ensures forall f :: f in Filters(o) && f.kind == TypeFilter ==> Present(o.listingType)
    ensures forall f :: f in Filters(o) && f.kind == NicheFilter ==> Present(o.niche)
    ensures forall f :: f in Filters(o) && f.kind == MinPrice ==> o.minPrice.Some?
    ensures forall f :: f in Filters(o) && f.kind == MaxPrice ==> o.maxPrice.Some?
  {
    CollectOrdered(o, ClauseOrder);
    forall f: Filter ensures f in Filters(o) <==> f in Part(o, f.kind) {
      CollectMembers(o, ClauseOrder, f);
      assert f.kind in ClauseOrder by {
        match f.kind
        case Search => assert ClauseOrder[0] == Search;
        case TypeFilter => assert ClauseOrder[1] == TypeFilter;
        case NicheFilter => assert ClauseOrder[2] == NicheFilter;
        case MinPrice => assert ClauseOrder[3] == MinPrice;
        case MaxPrice => assert ClauseOrder[4] == MaxPrice;
      }
    }
  }

  /** Called with no options, the query has only the status condition,
      orders newest first and binds limit 20 and offset 0 to `$1` and `$2`. */
  lemma Defaults()
    ensures Filters(NoOptions) == []
    ensures forall q :: Binds(q, Filters(NoOptions), NoOptions.limit.GetOr(DefaultLimit), NoOptions.offset.GetOr(DefaultOffset)) ==>
              q.where == [ActiveOnly] && q.params == [IntParam(20), IntParam(0)] && q.limitRef == 1 && q.offsetRef == 2
  {
    FiltersInClauseOrder(NoOptions);
  }

  /** Whatever the options, the rendered WHERE clause starts with the status condition. */
  lemma {:induction false} WhereStartsWithActive(where: seq<Cond>)
    requires |where| >= 1 && where[0] == ActiveOnly
    ensures |WhereSql(where)| >= |CondSql(ActiveOnly)|
    ensures WhereSql(where)[..|CondSql(ActiveOnly)|] == "WHERE l.status = 'ACTIVE'"
  {
    if |where| > 1 {
      WhereStartsWithActive(where[..|where| - 1]);
      assert where[..|where| - 1][0] == ActiveOnly;
    } else {
      assert WhereSql(where) == WhereSql([]) + CondSql(ActiveOnly);
    }
  }

  /** Placeholders with different numbers are different text, so no two
      filter clauses share a parameter. */
  lemma PlaceholdersDistinct(m: nat, n: nat)
    requires m != n
    ensures Placeholder(m) != Placeholder(n)
  {
    Decimal.NatToStringInjective(m, n);
    assert Placeholder(m)[1..] == Decimal.NatToString(m);
    assert Placeholder(n)[1..] == Decimal.NatToString(n);
  }
}
